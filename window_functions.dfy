/**
 * Window functions: the Hamming window's coefficients, the `apply*`
 * operations that weight samples by a window, and the names of the window
 * function codes. The cosine is a parameter: `cosine(i, n)` stands for
 * cos(2π·i/n), whatever the platform yields when n is 0.
 */
module WindowFunctions {
  import opened Wrappers

  const WindowFuncRectangular: int := 1
  const WindowFuncBlackman: int := 2
  const WindowFuncHamming: int := 3
  const WindowFuncHann: int := 4
  const WindowFuncMin: int := WindowFuncRectangular
  const WindowFuncMax: int := WindowFuncHann

  /** `CFG_WINDOW_FUNC`: the window the library is built with. */
  const ConfiguredWindowFunc: int := WindowFuncRectangular

  const HammingOffsetErr: string := "getHamming(): offset >= len"
  const InvalidWindowErr: string := "Invalid window function"

  /** The Hamming coefficient of sample i in a window of len samples. */
  function HammingAt(i: nat, len: nat, cosine: (nat, nat) -> real): real
    requires len > 0
  {
    0.54 - 0.46 * cosine(i, len - 1)
  }

  /** The Blackman coefficient of sample i in a window of len samples. */
  function BlackmanAt(i: nat, len: nat, cosine: (nat, nat) -> real): real
    requires len > 0
  {
    0.42 - 0.5 * cosine(i, len - 1) + 0.08 * cosine(2 * i, len - 1)
  }

  /** The Hann coefficient of sample i in a window of len samples. */
  function HannAt(i: nat, len: nat, cosine: (nat, nat) -> real): real
    requires len > 0
  {
    0.5 * (1.0 - cosine(i, len - 1))
  }

  /** The window `getHamming(len, offset)` returns: zeros below offset, Hamming coefficients from offset on. */
  function HammingWindow(len: nat, offset: nat, cosine: (nat, nat) -> real): (w: seq<real>)
    requires offset < len
    ensures |w| == len
  {
    seq(len, i requires 0 <= i < len => if i < offset then 0.0 else HammingAt(i, len, cosine))
  }

  /**
   * The entries below the offset are 0, and those from the offset on do
   * not depend on it: two windows of the same length agree wherever both
   * offsets are passed.
   */
  lemma HammingWindowShape(len: nat, o1: nat, o2: nat, cosine: (nat, nat) -> real)
    requires o1 < len && o2 < len
    ensures forall i :: 0 <= i < o1 ==> HammingWindow(len, o1, cosine)[i] == 0.0
    ensures forall i :: o1 <= i < len && o2 <= i ==> HammingWindow(len, o1, cosine)[i] == HammingWindow(len, o2, cosine)[i]
  {
  }

  /** `getHamming(len, offset)`: refuses an offset not below the length, else fills the window from the offset on. */
  method GetHamming(len: nat, offset: nat, cosine: (nat, nat) -> real) returns (r: Result<seq<real>>)
    ensures r.Err? <==> offset >= len
    ensures r.Err? ==> r.msg == HammingOffsetErr
    ensures r.Ok? ==> r.value == HammingWindow(len, offset, cosine)
  {
    if offset >= len {
      return Err(HammingOffsetErr);
    }
    var win := new real[len](_ => 0.0);
    for i := offset to len
      invariant forall k :: 0 <= k < offset ==> win[k] == 0.0
      invariant forall k :: offset <= k < i ==> win[k] == HammingAt(k, len, cosine)
      invariant forall k :: i <= k < len ==> win[k] == 0.0
    {
      win[i] := HammingAt(i, len, cosine);
    }
    r := Ok(win[..]);
  }

  /** The samples weighted entry by entry by a window of the same length. */
  function Windowed(td: seq<real>, win: seq<real>): (r: seq<real>)
    requires |win| == |td|
    ensures |r| == |td|
  {
    seq(|td|, i requires 0 <= i < |td| => td[i] * win[i])
  }

  /** The Blackman or Hann window of len samples. */
  function BlackmanWindow(len: nat, cosine: (nat, nat) -> real): (w: seq<real>)
    ensures |w| == len
  {
    seq(len, i requires 0 <= i < len => BlackmanAt(i, len, cosine))
  }

  function HannWindow(len: nat, cosine: (nat, nat) -> real): (w: seq<real>)
    ensures |w| == len
  {
    seq(len, i requires 0 <= i < len => HannAt(i, len, cosine))
  }

  /** Multiplies a by win entry by entry, in place. */
  method MultiplyInPlace(a: array<real>, win: seq<real>)
    requires |win| == a.Length
    modifies a
    ensures a[..] == Windowed(old(a[..]), win)
  {
    ghost var orig := a[..];
    for i := 0 to a.Length
      invariant forall k :: 0 <= k < i ==> a[k] == orig[k] * win[k]
      invariant forall k :: i <= k < a.Length ==> a[k] == orig[k]
    {
      a[i] := a[i] * win[i];
    }
    assert forall k :: 0 <= k < a.Length ==> a[..][k] == Windowed(orig, win)[k];
  }

  /**
   * `applyHamming(td)`: the samples arrive by value, so the window is
   * applied to a copy and the caller's samples are left as they were. An
   * empty input makes `getHamming` throw.
   */
  method ApplyHamming(td: array<real>, cosine: (nat, nat) -> real) returns (failure: Option<string>)
    ensures failure == (if td.Length == 0 then Some(HammingOffsetErr) else None)
    ensures td[..] == old(td[..])
  {
    var copy := new real[td.Length](i requires 0 <= i < td.Length reads td => td[i]);
    var win := GetHamming(copy.Length, 0, cosine);
    if win.Err? {
      return Some(win.msg);
    }
    MultiplyInPlace(copy, win.value);
    failure := None;
  }

  /** `applyBlackman(td)`: windows a copy; the caller's samples are left as they were. */
  method ApplyBlackman(td: array<real>, cosine: (nat, nat) -> real)
    ensures td[..] == old(td[..])
  {
    var copy := new real[td.Length](i requires 0 <= i < td.Length reads td => td[i]);
    MultiplyInPlace(copy, BlackmanWindow(copy.Length, cosine));
  }

  /** `applyHann(td)`: windows a copy; the caller's samples are left as they were. */
  method ApplyHann(td: array<real>, cosine: (nat, nat) -> real)
    ensures td[..] == old(td[..])
  {
    var copy := new real[td.Length](i requires 0 <= i < td.Length reads td => td[i]);
    MultiplyInPlace(copy, HannWindow(copy.Length, cosine));
  }

  /** `applyDefault(td)`: the configured window is the rectangular one, for which nothing is done. */
  method ApplyDefault(td: array<real>)
    ensures td[..] == old(td[..])
  {
  }

  /**
   * The window applied to the caller's samples, as `applyHamming` was
   * evidently meant to do; an empty input still fails.
   */
  method ApplyHammingInPlace(td: array<real>, cosine: (nat, nat) -> real) returns (failure: Option<string>)
    modifies td
    ensures failure == (if td.Length == 0 then Some(HammingOffsetErr) else None)
    ensures failure.None? ==> td[..] == Windowed(old(td[..]), HammingWindow(td.Length, 0, cosine))
    ensures failure.Some? ==> td[..] == old(td[..])
  {
    var win := GetHamming(td.Length, 0, cosine);
    if win.Err? {
      return Some(win.msg);
    }
    MultiplyInPlace(td, win.value);
    failure := None;
  }

  /**
   * Windowing does change samples: three unit samples under a Hamming
   * window (whose first coefficient is 0.54 − 0.46 = 0.08) are not left as
   * they were, which `applyHamming` nevertheless does.
   */
  lemma HammingChangesSamples(cosine: (nat, nat) -> real)
    requires cosine(0, 2) == 1.0
    ensures Windowed([1.0, 1.0, 1.0], HammingWindow(3, 0, cosine))[0] == 0.08
    ensures Windowed([1.0, 1.0, 1.0], HammingWindow(3, 0, cosine)) != [1.0, 1.0, 1.0]
  {
    assert HammingWindow(3, 0, cosine)[0] == 0.08;
  }

  /** The Blackman window applied to the caller's samples, as `applyBlackman` was evidently meant to do. */
  method ApplyBlackmanInPlace(td: array<real>, cosine: (nat, nat) -> real)
    modifies td
    ensures td[..] == Windowed(old(td[..]), BlackmanWindow(td.Length, cosine))
  {
    MultiplyInPlace(td, BlackmanWindow(td.Length, cosine));
  }

  /** The Hann window applied to the caller's samples, as `applyHann` was evidently meant to do. */
  method ApplyHannInPlace(td: array<real>, cosine: (nat, nat) -> real)
    modifies td
    ensures td[..] == Windowed(old(td[..]), HannWindow(td.Length, cosine))
  {
    MultiplyInPlace(td, HannWindow(td.Length, cosine));
  }

  /**
   * The Blackman and Hann windows also change samples: both start at
   * coefficient 0 (0.42 − 0.5 + 0.08, and 0.5 · (1 − 1)), so the first of
   * three unit samples becomes 0, which `applyBlackman` and `applyHann`
   * nevertheless leave at 1.
   */
  lemma BlackmanHannChangeSamples(cosine: (nat, nat) -> real)
    requires cosine(0, 2) == 1.0
    ensures Windowed([1.0, 1.0, 1.0], BlackmanWindow(3, cosine))[0] == 0.0
    ensures Windowed([1.0, 1.0, 1.0], HannWindow(3, cosine))[0] == 0.0
    ensures Windowed([1.0, 1.0, 1.0], BlackmanWindow(3, cosine)) != [1.0, 1.0, 1.0]
    ensures Windowed([1.0, 1.0, 1.0], HannWindow(3, cosine)) != [1.0, 1.0, 1.0]
  {
    assert BlackmanWindow(3, cosine)[0] == 0.0;
    assert HannWindow(3, cosine)[0] == 0.0;
  }

  /** `toString(fcode)`: the name of a window function code; codes outside 1..4 throw. */
  function WindowName(fcode: int): (r: Result<string>)
    ensures r.Err? <==> fcode < WindowFuncMin || fcode > WindowFuncMax
    ensures r.Err? ==> r.msg == InvalidWindowErr
  {
    if fcode < WindowFuncMin || fcode > WindowFuncMax then Err(InvalidWindowErr)
    else if fcode == WindowFuncRectangular then Ok("Rectangular")
    else if fcode == WindowFuncBlackman then Ok("Blackman")
    else if fcode == WindowFuncHamming then Ok("Hamming")
    else Ok("Hann")
  }

  /** The code whose name is `name`, if any. */
  function WindowCode(name: string): (r: Option<int>)
    ensures r.Some? ==> WindowFuncMin <= r.value <= WindowFuncMax && WindowName(r.value) == Ok(name)
  {
    if name == "Rectangular" then Some(WindowFuncRectangular)
    else if name == "Blackman" then Some(WindowFuncBlackman)
    else if name == "Hamming" then Some(WindowFuncHamming)
    else if name == "Hann" then Some(WindowFuncHann)
    else None
  }

  /** Each valid code has its own name: the name gives the code back. */
  lemma WindowNameRoundTrip(fcode: int)
    requires WindowFuncMin <= fcode <= WindowFuncMax
    ensures WindowName(fcode).Ok? && WindowCode(WindowName(fcode).value) == Some(fcode)
  {
  }
}
