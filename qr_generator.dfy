/**
 * The QR generator: the UPI payment link it encodes and the mock QR pattern it
 * derives from the link's hash.
 */
module QrGenerator {
  import opened Wrappers

  // ----- JavaScript 32-bit integers -----

  const TwoTo32 := 0x1_0000_0000
  const TwoTo31 := 0x8000_0000

  predicate IsInt32(x: int) {
    -TwoTo31 <= x < TwoTo31
  }

  /** The ECMAScript ToInt32 conversion of an integer. */
  function ToInt32(x: int): (r: int)
    ensures IsInt32(r)
  {
    var m := x % TwoTo32;
    if m >= TwoTo31 then m - TwoTo32 else m
  }

  lemma ToInt32Congruent(x: int, k: int)
    ensures ToInt32(x + k * TwoTo32) == ToInt32(x)
  {
    var q := x / TwoTo32;
    var r := x % TwoTo32;
    assert x + k * TwoTo32 == (q + k) * TwoTo32 + r;
    ModUnique(x + k * TwoTo32, q + k, r);
  }

  lemma ModUnique(a: int, q: int, r: int)
    requires a == q * TwoTo32 + r && 0 <= r < TwoTo32
    ensures a % TwoTo32 == r
  {
    var q' := a / TwoTo32;
    var r' := a % TwoTo32;
    assert (q - q') * TwoTo32 == r' - r;
    MulBounds(q - q', TwoTo32);
  }

  /** ToInt32 depends only on the value modulo 2^32, and is the identity on 32-bit values. */
  lemma ToInt32Mod(x: int, y: int)
    requires x % TwoTo32 == y % TwoTo32
    ensures ToInt32(x) == ToInt32(y)
    ensures IsInt32(x) ==> ToInt32(x) == x
  {
    if IsInt32(x) {
      if x >= 0 {
        ModUnique(x, 0, x);
      } else {
        ModUnique(x, -1, x + TwoTo32);
      }
    }
  }

  /** One step of the hash exactly as written: `((h << 5) - h + code) & 0xffffffff`. */
  function HashStep(h: int, code: int): (r: int)
    ensures IsInt32(r)
  {
    // `<<` and `&` both convert their operands with ToInt32; `0xffffffff` becomes -1.
    ToInt32(ToInt32(ToInt32(h) * 32) - h + code)
  }

  /** On a 32-bit hash the step is the familiar `h * 31 + code`, wrapped to 32 bits. */
  lemma HashStepIsTimes31(h: int, code: int)
    requires IsInt32(h)
    ensures HashStep(h, code) == ToInt32(31 * h + code)
  {
    ToInt32Mod(h, h);
    var s := ToInt32(32 * h);
    var x := 32 * h;
    var m := x % TwoTo32;
    var q := x / TwoTo32;
    assert x == q * TwoTo32 + m;
    if m >= TwoTo31 {
      assert s == x - (q + 1) * TwoTo32;
      ToInt32Congruent(31 * h + code, -(q + 1));
      assert s - h + code == 31 * h + code + (-(q + 1)) * TwoTo32;
    } else {
      assert s == x - q * TwoTo32;
      ToInt32Congruent(31 * h + code, -q);
      assert s - h + code == 31 * h + code + (-q) * TwoTo32;
    }
  }

  // ----- text as UTF-16 code units -----

  /** The UTF-16 code units of one character, as `charCodeAt` reads them. */
  function CodeUnits(c: char): (r: seq<int>)
    ensures 1 <= |r| <= 2
    ensures forall i :: 0 <= i < |r| ==> 0 <= r[i] < 0x1_0000
  {
    var v := c as int;
    if v < 0x1_0000 then [v]
    else [0xD800 + (v - 0x1_0000) / 0x400, 0xDC00 + (v - 0x1_0000) % 0x400]
  }

  /** The code units of a string, in order; `text.length` is the length of this. */
  function Utf16(s: string): seq<int> {
    if s == [] then [] else Utf16(s[..|s| - 1]) + CodeUnits(s[|s| - 1])
  }

  /** The text hash: `HashStep` folded over the code units from `hash = 0`. */
  function Hash(units: seq<int>): (h: int)
    ensures IsInt32(h)
  {
    if units == [] then 0 else HashStep(Hash(units[..|units| - 1]), units[|units| - 1])
  }

  /** The hash loop of `generateQRPattern`. */
  method ComputeHash(units: seq<int>) returns (hash: int)
    ensures hash == Hash(units)
    ensures IsInt32(hash)
  {
    hash := 0;
    var i := 0;
    while i < |units|
      invariant 0 <= i <= |units|
      invariant hash == Hash(units[..i])
    {
      assert units[..i + 1][..i] == units[..i];
      hash := HashStep(hash, units[i]);
      i := i + 1;
    }
    assert units[..i] == units;
  }

  /** Characters outside the Basic Multilingual Plane hash as two code units. */
  lemma HashExamples()
    ensures Hash([]) == 0
    ensures Hash([97]) == 97
    ensures Hash([97, 98]) == 3105
    ensures Utf16("ab") == [97, 98]
    ensures Utf16("\U{1F600}") == [0xD83D, 0xDE00]
  {
    assert [97, 98][..1] == [97];
    assert "ab"[..1] == "a";
    HashStepIsTimes31(0, 97);
    HashStepIsTimes31(97, 98);
    ToInt32Mod(97, 97);
    ToInt32Mod(3105, 3105);
  }

  // ----- the pattern -----

  const Size := 200
  const CellSize := 8
  /** The grid is `Size / CellSize` cells on a side. */
  const Cells := Size / CellSize

  lemma GridIs25By25()
    ensures Cells == 25 && Cells * Cells == 625
  {
  }

  /** `(a % b)` as JavaScript computes it: the remainder takes the sign of `a`. */
  function JsRem(a: int, b: int): int
    requires b > 0
  {
    if a >= 0 then a % b else -((-a) % b)
  }

  /** A JavaScript remainder is zero exactly when `b` divides `a`, whatever the sign. */
  lemma JsRemZeroIffDivides(a: int, b: int)
    requires b > 0
    ensures JsRem(a, b) == 0 <==> a % b == 0
  {
    if a < 0 {
      if (-a) % b == 0 {
        var q := (-a) / b;
        assert -a == q * b;
        UniqueRem(a, b, -q);
      }
      if a % b == 0 {
        var q := a / b;
        assert a == q * b;
        UniqueRem(-a, b, -q);
      }
    }
  }

  lemma UniqueRem(a: int, b: int, q: int)
    requires b > 0 && a == q * b
    ensures a % b == 0
  {
    var q' := a / b;
    var r := a % b;
    assert (q - q') * b == r;
    MulBounds(q - q', b);
  }

  /** A non-zero multiple of `m` is at least `m` away from zero. */
  lemma MulBounds(d: int, m: int)
    requires m > 0
    ensures d >= 1 ==> d * m >= m
    ensures d <= -1 ==> d * m <= -m
  {
    if d >= 1 {
      assert d * m == (d - 1) * m + m;
    } else if d <= -1 {
      assert d * m == (d + 1) * m - m;
    }
  }

  /** Cell `i` is dark when `(hash + i) % 3 === 0`. */
  predicate CellSet(hash: int, i: int) {
    JsRem(hash + i, 3) == 0
  }

  /** `generateQRPattern(text, cells)`. */
  method GenerateQRPattern(text: string, cells: nat) returns (pattern: array<bool>)
    ensures fresh(pattern)
    ensures pattern.Length == cells * cells
    ensures forall i :: 0 <= i < pattern.Length ==> pattern[i] == CellSet(Hash(Utf16(text)), i)
  {
    var n := cells * cells;
    pattern := new bool[n];
    var hash := ComputeHash(Utf16(text));
    var i := 0;
    while i < n
      invariant 0 <= i <= n == pattern.Length
      invariant forall k :: 0 <= k < i ==> pattern[k] == CellSet(hash, k)
    {
      pattern[i] := JsRem(hash + i, 3) == 0;
      i := i + 1;
    }
  }

  /** Exactly every third cell is dark, starting from the first index where `hash + i` divides by 3. */
  lemma CellsRepeatEveryThree(hash: int, i: int)
    ensures CellSet(hash, i) <==> (hash + i) % 3 == 0
    ensures CellSet(hash, i) <==> CellSet(hash, i + 3)
    ensures CellSet(hash, i) ==> !CellSet(hash, i + 1) && !CellSet(hash, i + 2)
  {
    JsRemZeroIffDivides(hash + i, 3);
    JsRemZeroIffDivides(hash + i + 1, 3);
    JsRemZeroIffDivides(hash + i + 2, 3);
    JsRemZeroIffDivides(hash + i + 3, 3);
  }

  // ----- the UPI link -----

  datatype Param = Param(name: string, value: string)

  function Names(ps: seq<Param>): seq<string> {
    if ps == [] then [] else [ps[0].name] + Names(ps[1..])
  }

  /** The value of the first parameter called `name`. */
  function Get(ps: seq<Param>, name: string): Option<string> {
    if ps == [] then None else if ps[0].name == name then Some(ps[0].value) else Get(ps[1..], name)
  }

  /** The parameters other than `name`, in order. */
  function Drop(ps: seq<Param>, name: string): seq<Param> {
    if ps == [] then [] else (if ps[0].name == name then [] else [ps[0]]) + Drop(ps[1..], name)
  }

  /**
   * `URLSearchParams.set`: the first parameter with that name takes the value
   * and later ones are removed; without one, the pair is appended.
   */
  function SetParam(ps: seq<Param>, name: string, value: string): seq<Param> {
    if ps == [] then [Param(name, value)]
    else if ps[0].name == name then [Param(name, value)] + Drop(ps[1..], name)
    else [ps[0]] + SetParam(ps[1..], name, value)
  }

  lemma {:induction false} DropRemoves(ps: seq<Param>, name: string, other: string)
    ensures Get(Drop(ps, name), name) == None
    ensures other != name ==> Get(Drop(ps, name), other) == Get(ps, other)
  {
    if ps != [] {
      DropRemoves(ps[1..], name, other);
      var rest := Drop(ps[1..], name);
      if ps[0].name == name {
        assert Drop(ps, name) == rest;
      } else {
        assert Drop(ps, name) == [ps[0]] + rest;
        assert ([ps[0]] + rest)[1..] == rest;
      }
    }
  }

  /** After `set`, the name reads back the new value and every other name is unchanged. */
  lemma {:induction false} SetParamThenGet(ps: seq<Param>, name: string, value: string, other: string)
    ensures Get(SetParam(ps, name, value), name) == Some(value)
    ensures other != name ==> Get(SetParam(ps, name, value), other) == Get(ps, other)
  {
    if ps != [] {
      if ps[0].name == name {
        DropRemoves(ps[1..], name, other);
      } else {
        SetParamThenGet(ps[1..], name, value, other);
      }
    }
  }

  /** Setting a name not yet present appends it. */
  lemma {:induction false} SetParamAppendsNew(ps: seq<Param>, name: string, value: string)
    requires Get(ps, name) == None
    ensures SetParam(ps, name, value) == ps + [Param(name, value)]
  {
    if ps != [] {
      SetParamAppendsNew(ps[1..], name, value);
      assert ps == [ps[0]] + ps[1..];
    }
  }

  lemma {:induction false} GetAppend(ps: seq<Param>, q: Param, name: string)
    ensures Get(ps + [q], name) == if Get(ps, name).Some? then Get(ps, name) else if q.name == name then Some(q.value) else None
    ensures Names(ps + [q]) == Names(ps) + [q.name]
  {
    if ps != [] {
      GetAppend(ps[1..], q, name);
      assert (ps + [q])[1..] == ps[1..] + [q];
    }
  }

  /** `params.toString()` without percent-encoding: `name=value` pairs joined by `&`. */
  function Serialize(ps: seq<Param>): string {
    if ps == [] then ""
    else if |ps| == 1 then ps[0].name + "=" + ps[0].value
    else ps[0].name + "=" + ps[0].value + "&" + Serialize(ps[1..])
  }

  const PayeeName := "DoPayment User"
  const Currency := "INR"

  /** `if (amount)`: the amount field is truthy; `None` is `undefined` or `NaN`. */
  predicate AmountIsTruthy(amount: Option<real>) {
    amount.Some? && amount.value != 0.0
  }

  /** The parameters `generateUPIUrl` sets, in order; `amountText` is `amount.toString()`. */
  function UpiParams(upiId: string, amount: Option<real>, amountText: string, description: string): seq<Param> {
    [Param("pa", upiId), Param("pn", PayeeName)]
    + (if AmountIsTruthy(amount) then [Param("am", amountText)] else [])
    + [Param("cu", Currency)]
    + (if description != "" then [Param("tr", description)] else [])
  }

  /**
   * The link's parameters come in the order pa, pn, [am], cu, [tr]; pn and cu
   * are fixed; `am` is present iff the amount is truthy and `tr` iff the
   * description is non-empty.
   */
  lemma UpiParamsShape(upiId: string, amount: Option<real>, amountText: string, description: string)
    ensures var ps := UpiParams(upiId, amount, amountText, description);
      && Names(ps) == ["pa", "pn"] + (if AmountIsTruthy(amount) then ["am"] else []) + ["cu"] + (if description != "" then ["tr"] else [])
      && Get(ps, "pa") == Some(upiId)
      && Get(ps, "pn") == Some(PayeeName)
      && Get(ps, "cu") == Some(Currency)
      && (Get(ps, "am").Some? <==> AmountIsTruthy(amount))
      && (Get(ps, "tr").Some? <==> description != "")
      && (AmountIsTruthy(amount) ==> Get(ps, "am") == Some(amountText))
      && (description != "" ==> Get(ps, "tr") == Some(description))
  {
    var p2 := [Param("pa", upiId), Param("pn", PayeeName)];
    assert p2 == [Param("pa", upiId)] + [Param("pn", PayeeName)];
    GetAppend([Param("pa", upiId)], Param("pn", PayeeName), "pa");
    GetAppend([Param("pa", upiId)], Param("pn", PayeeName), "pn");
    GetAppend([Param("pa", upiId)], Param("pn", PayeeName), "am");
    GetAppend([Param("pa", upiId)], Param("pn", PayeeName), "cu");
    GetAppend([Param("pa", upiId)], Param("pn", PayeeName), "tr");
    var p3 := p2;
    if AmountIsTruthy(amount) {
      p3 := p2 + [Param("am", amountText)];
      GetAppend(p2, Param("am", amountText), "pa");
      GetAppend(p2, Param("am", amountText), "pn");
      GetAppend(p2, Param("am", amountText), "am");
      GetAppend(p2, Param("am", amountText), "cu");
      GetAppend(p2, Param("am", amountText), "tr");
    }
    var p4 := p3 + [Param("cu", Currency)];
    GetAppend(p3, Param("cu", Currency), "pa");
    GetAppend(p3, Param("cu", Currency), "pn");
    GetAppend(p3, Param("cu", Currency), "am");
    GetAppend(p3, Param("cu", Currency), "cu");
    GetAppend(p3, Param("cu", Currency), "tr");
    var p5 := p4;
    if description != "" {
      p5 := p4 + [Param("tr", description)];
      GetAppend(p4, Param("tr", description), "pa");
      GetAppend(p4, Param("tr", description), "pn");
      GetAppend(p4, Param("tr", description), "am");
      GetAppend(p4, Param("tr", description), "cu");
      GetAppend(p4, Param("tr", description), "tr");
    }
    assert p5 == UpiParams(upiId, amount, amountText, description);
  }

  /** The search-parameter object `generateUPIUrl` fills one `set` at a time. */
  class SearchParams {
    var entries: seq<Param>

    constructor ()
      ensures entries == []
    {
      entries := [];
    }

    method Set(name: string, value: string)
      modifies this
      ensures entries == SetParam(old(entries), name, value)
    {
      entries := SetParam(entries, name, value);
    }
  }

  /** `generateUPIUrl`. */
  method GenerateUpiUrl(upiId: string, amount: Option<real>, amountText: string, description: string) returns (url: string)
    ensures url == "upi://pay?" + Serialize(UpiParams(upiId, amount, amountText, description))
  {
    var params := new SearchParams();
    params.Set("pa", upiId);
    ghost var expected := [Param("pa", upiId)];
    SetParamAppendsNew(expected, "pn", PayeeName);
    params.Set("pn", PayeeName);
    GetAppend(expected, Param("pn", PayeeName), "am");
    GetAppend(expected, Param("pn", PayeeName), "cu");
    GetAppend(expected, Param("pn", PayeeName), "tr");
    expected := expected + [Param("pn", PayeeName)];
    if amount.Some? && amount.value != 0.0 {
      SetParamAppendsNew(expected, "am", amountText);
      params.Set("am", amountText);
      GetAppend(expected, Param("am", amountText), "cu");
      GetAppend(expected, Param("am", amountText), "tr");
      expected := expected + [Param("am", amountText)];
    }
    SetParamAppendsNew(expected, "cu", Currency);
    params.Set("cu", Currency);
    GetAppend(expected, Param("cu", Currency), "tr");
    expected := expected + [Param("cu", Currency)];
    if description != "" {
      SetParamAppendsNew(expected, "tr", description);
      params.Set("tr", description);
      expected := expected + [Param("tr", description)];
    }
    assert params.entries == expected == UpiParams(upiId, amount, amountText, description);
    url := "upi://pay?" + Serialize(params.entries);
  }
}
