/**
 Text of the fleet log as UTF-16 code units: the removal of complete terminal
 sequences, the escape grammar, and the decoder that undoes it.
 */
module LogText {
  import opened Bytes
  import opened Wrappers

  type unit = u: int | 0 <= u < 0x10000

  type Text = seq<unit>

  const ESC: unit := 0x1B
  const SPACE: unit := 0x20
  const QUOTE: unit := 0x22
  const BACKSLASH: unit := 0x5C
  const EQUALS: unit := 0x3D
  const OPEN: unit := 0x5B
  const CLOSE: unit := 0x5D

  /** The whitespace class of the host language's patterns and of its trimming. */
  predicate WhiteSpace(u: unit) {
    || 0x9 <= u <= 0xD || u == 0x20 || u == 0xA0 || u == 0x1680 || 0x2000 <= u <= 0x200A
    || u == 0x2028 || u == 0x2029 || u == 0x202F || u == 0x205F || u == 0x3000 || u == 0xFEFF
  }

  /** C0, DEL and C1, without the two line breaks. */
  predicate Control(u: unit) { (u < 0x20 && u != 0xA && u != 0xD) || 0x7F <= u <= 0x9F }

  // ------------------------------------------------ stripping complete sequences

  /** Parameter and intermediate bytes, then a final byte. */
  function CsiEnd(v: Text, cursor: nat): Option<nat>
    decreases |v| - cursor
  {
    if cursor >= |v| then None
    else if 0x40 <= v[cursor] <= 0x7E then Some(cursor + 1)
    else if v[cursor] < 0x20 || v[cursor] > 0x3F then None
    else CsiEnd(v, cursor + 1)
  }

  function OscEnd(v: Text, cursor: nat): Option<nat>
    decreases |v| - cursor
  {
    if cursor >= |v| then None
    else if v[cursor] == 0x07 || v[cursor] == 0x9C then Some(cursor + 1)
    else if v[cursor] == ESC && cursor + 1 < |v| && v[cursor + 1] == BACKSLASH then Some(cursor + 2)
    else OscEnd(v, cursor + 1)
  }

  predicate IsCsi(v: Text, i: nat)
    requires i < |v|
  {
    (v[i] == ESC && i + 1 < |v| && v[i + 1] == OPEN) || v[i] == 0x9B
  }

  predicate IsOsc(v: Text, i: nat)
    requires i < |v|
  {
    (v[i] == ESC && i + 1 < |v| && v[i + 1] == CLOSE) || v[i] == 0x9D
  }

  /** Where a sequence that starts at `i` ends, if it ends inside the field. */
  function SequenceEnd(v: Text, i: nat): (end: Option<nat>)
    requires i < |v|
  {
    var body := i + if v[i] == ESC then 2 else 1;
    if IsCsi(v, i) then CsiEnd(v, body) else if IsOsc(v, i) then OscEnd(v, body) else None
  }

  lemma {:induction false} CsiAdvances(v: Text, cursor: nat)
    ensures CsiEnd(v, cursor).Some? ==> cursor < CsiEnd(v, cursor).value <= |v|
    decreases |v| - cursor
  {
    if cursor < |v| { CsiAdvances(v, cursor + 1); }
  }

  lemma {:induction false} OscAdvances(v: Text, cursor: nat)
    ensures OscEnd(v, cursor).Some? ==> cursor < OscEnd(v, cursor).value <= |v|
    decreases |v| - cursor
  {
    if cursor < |v| { OscAdvances(v, cursor + 1); }
  }

  lemma SequenceAdvances(v: Text, i: nat)
    requires i < |v|
    ensures SequenceEnd(v, i).Some? ==> i < SequenceEnd(v, i).value <= |v|
  {
    CsiAdvances(v, i + if v[i] == ESC then 2 else 1);
    OscAdvances(v, i + if v[i] == ESC then 2 else 1);
  }

  function StripFrom(v: Text, i: nat): Text
    decreases |v| - i
  {
    if i >= |v| then []
    else
      SequenceAdvances(v, i);
      match SequenceEnd(v, i)
      case None => [v[i]] + StripFrom(v, i + 1)
      case Some(end) => StripFrom(v, end)
  }

  function Strip(v: Text): Text { StripFrom(v, 0) }

  /** How many complete sequences stand at or behind `i`. */
  function Sequences(v: Text, i: nat): nat
    decreases |v| - i
  {
    if i >= |v| then 0
    else
      SequenceAdvances(v, i);
      match SequenceEnd(v, i)
      case None => Sequences(v, i + 1)
      case Some(end) => 1 + Sequences(v, end)
  }

  predicate Introducer(u: unit) { u == ESC || u == 0x9B || u == 0x9D }

  lemma {:induction false} NothingToStrip(v: Text, i: nat)
    requires i <= |v| && forall u <- v :: !Introducer(u)
    ensures StripFrom(v, i) == v[i..] && Sequences(v, i) == 0
    decreases |v| - i
  {
    if i < |v| {
      assert v[i] in v;
      NothingToStrip(v, i + 1);
    }
  }

  /** The scanner, with its quick exit for text without any introducer. */
  method StripCompleteSequences(value: Text) returns (output: Text, count: nat)
    ensures output == Strip(value) && count == Sequences(value, 0)
    ensures count == 0 <==> output == value
  {
    if forall u <- value :: !Introducer(u) {
      NothingToStrip(value, 0);
      return value, 0;
    }
    output, count := [], 0;
    var index := 0;
    while index < |value|
      invariant index <= |value|
      invariant output + StripFrom(value, index) == Strip(value)
      invariant count + Sequences(value, index) == Sequences(value, 0)
      invariant count == 0 ==> output == value[..index]
      invariant |output| + count <= index
      decreases |value| - index
    {
      SequenceAdvances(value, index);
      var end := FindEnd(value, index);
      if end.None? {
        ConcatAssociates(output, [value[index]], StripFrom(value, index + 1));
        output, index := output + [value[index]], index + 1;
      } else {
        count, index := count + 1, end.value;
      }
    }
    assert value[..|value|] == value;
  }

  method FindEnd(value: Text, index: nat) returns (end: Option<nat>)
    requires index < |value|
    ensures end == SequenceEnd(value, index)
  {
    end := None;
    if IsCsi(value, index) {
      var cursor := index + if value[index] == ESC then 2 else 1;
      while cursor < |value|
        invariant CsiEnd(value, cursor) == SequenceEnd(value, index)
      {
        if 0x40 <= value[cursor] <= 0x7E { return Some(cursor + 1); }
        if value[cursor] < 0x20 || value[cursor] > 0x3F { return None; }
        cursor := cursor + 1;
      }
    } else if IsOsc(value, index) {
      var cursor := index + if value[index] == ESC then 2 else 1;
      while cursor < |value|
        invariant OscEnd(value, cursor) == SequenceEnd(value, index)
      {
        if value[cursor] == 0x07 || value[cursor] == 0x9C { return Some(cursor + 1); }
        if value[cursor] == ESC && cursor + 1 < |value| && value[cursor + 1] == BACKSLASH { return Some(cursor + 2); }
        cursor := cursor + 1;
      }
    }
  }

  // ------------------------------------------------ escaping

  function HexDigit(d: int): unit
    requires 0 <= d < 16
  {
    if d < 10 then 0x30 + d else 0x61 + d - 10
  }

  function Hex4(u: unit): Text {
    [HexDigit(u / 4096), HexDigit(u / 256 % 16), HexDigit(u / 16 % 16), HexDigit(u % 16)]
  }

  function ReplaceUnit(s: Text, u: unit, sub: Text): Text {
    if s == [] then [] else (if s[0] == u then sub else [s[0]]) + ReplaceUnit(s[1..], u, sub)
  }

  function ReplaceControls(s: Text): Text {
    if s == [] then []
    else (if Control(s[0]) then [BACKSLASH, 0x75] + Hex4(s[0]) else [s[0]]) + ReplaceControls(s[1..])
  }

  function EscapeControls(s: Text): Text {
    ReplaceControls(ReplaceUnit(ReplaceUnit(s, 0xD, [BACKSLASH, 0x72]), 0xA, [BACKSLASH, 0x6E]))
  }

  /** Messages escape the backslash; quoted values escape the quote as well. */
  function Escape(s: Text, quoted: bool): Text {
    var slashed := ReplaceUnit(s, BACKSLASH, [BACKSLASH, BACKSLASH]);
    EscapeControls(if quoted then ReplaceUnit(slashed, QUOTE, [BACKSLASH, QUOTE]) else slashed)
  }

  /** What one unit becomes. */
  function Block(u: unit, quoted: bool): Text {
    if u == BACKSLASH then [BACKSLASH, BACKSLASH]
    else if u == QUOTE && quoted then [BACKSLASH, QUOTE]
    else if u == 0xD then [BACKSLASH, 0x72]
    else if u == 0xA then [BACKSLASH, 0x6E]
    else if Control(u) then [BACKSLASH, 0x75] + Hex4(u)
    else [u]
  }

  lemma {:induction false} ReplaceConcat(a: Text, b: Text, u: unit, sub: Text)
    ensures ReplaceUnit(a + b, u, sub) == ReplaceUnit(a, u, sub) + ReplaceUnit(b, u, sub)
  {
    if a == [] {
      NilConcat(b);
      NilConcat(ReplaceUnit(b, u, sub));
    } else {
      assert (a + b)[0] == a[0] && (a + b)[1..] == a[1..] + b;
      ReplaceConcat(a[1..], b, u, sub);
      ConcatAssociates(if a[0] == u then sub else [a[0]], ReplaceUnit(a[1..], u, sub), ReplaceUnit(b, u, sub));
    }
  }

  lemma {:induction false} ControlsConcat(a: Text, b: Text)
    ensures ReplaceControls(a + b) == ReplaceControls(a) + ReplaceControls(b)
  {
    if a == [] {
      NilConcat(b);
      NilConcat(ReplaceControls(b));
    } else {
      assert (a + b)[0] == a[0] && (a + b)[1..] == a[1..] + b;
      ControlsConcat(a[1..], b);
      ConcatAssociates(if Control(a[0]) then [BACKSLASH, 0x75] + Hex4(a[0]) else [a[0]], ReplaceControls(a[1..]),
                       ReplaceControls(b));
    }
  }

  lemma EscapeControlsConcat(a: Text, b: Text)
    ensures EscapeControls(a + b) == EscapeControls(a) + EscapeControls(b)
  {
    ReplaceConcat(a, b, 0xD, [BACKSLASH, 0x72]);
    ReplaceConcat(ReplaceUnit(a, 0xD, [BACKSLASH, 0x72]), ReplaceUnit(b, 0xD, [BACKSLASH, 0x72]), 0xA,
                  [BACKSLASH, 0x6E]);
    ControlsConcat(ReplaceUnit(ReplaceUnit(a, 0xD, [BACKSLASH, 0x72]), 0xA, [BACKSLASH, 0x6E]),
                   ReplaceUnit(ReplaceUnit(b, 0xD, [BACKSLASH, 0x72]), 0xA, [BACKSLASH, 0x6E]));
  }

  lemma EscapeConcat(a: Text, b: Text, quoted: bool)
    ensures Escape(a + b, quoted) == Escape(a, quoted) + Escape(b, quoted)
  {
    ReplaceConcat(a, b, BACKSLASH, [BACKSLASH, BACKSLASH]);
    var sa, sb := ReplaceUnit(a, BACKSLASH, [BACKSLASH, BACKSLASH]), ReplaceUnit(b, BACKSLASH, [BACKSLASH, BACKSLASH]);
    if quoted {
      ReplaceConcat(sa, sb, QUOTE, [BACKSLASH, QUOTE]);
      EscapeControlsConcat(ReplaceUnit(sa, QUOTE, [BACKSLASH, QUOTE]), ReplaceUnit(sb, QUOTE, [BACKSLASH, QUOTE]));
    } else {
      EscapeControlsConcat(sa, sb);
    }
  }

  lemma OneUnit(u: unit, v: unit, sub: Text)
    ensures ReplaceUnit([u], v, sub) == if u == v then sub else [u]
  {
    assert [u][1..] == [];
  }

  lemma TwoUnits(a: unit, b: unit, v: unit, sub: Text)
    requires a != v && b != v
    ensures ReplaceUnit([a, b], v, sub) == [a, b]
  {
    OneUnit(b, v, sub);
    assert [a, b][1..] == [b] && [a] + [b] == [a, b];
  }

  lemma ShortControls(a: unit, b: unit)
    requires !Control(a) && !Control(b)
    ensures ReplaceControls([a, b]) == [a, b]
  {
    assert [a, b][1..] == [b] && [b][1..] == [];
    assert ReplaceControls([b]) == [b] && [a] + [b] == [a, b];
  }

  lemma PlainPair(a: unit, b: unit)
    requires !Control(a) && !Control(b) && a != 0xA && a != 0xD && b != 0xA && b != 0xD
    ensures EscapeControls([a, b]) == [a, b]
  {
    TwoUnits(a, b, 0xD, [BACKSLASH, 0x72]);
    TwoUnits(a, b, 0xA, [BACKSLASH, 0x6E]);
    ShortControls(a, b);
  }

  lemma OneControl(u: unit)
    ensures ReplaceControls([u]) == if Control(u) then [BACKSLASH, 0x75] + Hex4(u) else [u]
  {
    var piece: Text := if Control(u) then [BACKSLASH, 0x75] + Hex4(u) else [u];
    assert [u][1..] == [];
    assert ReplaceControls([u]) == piece + [];
  }

  lemma ControlsOfUnit(u: unit)
    ensures EscapeControls([u]) ==
            if u == 0xD then [BACKSLASH, 0x72] else if u == 0xA then [BACKSLASH, 0x6E]
            else if Control(u) then [BACKSLASH, 0x75] + Hex4(u) else [u]
  {
    OneUnit(u, 0xD, [BACKSLASH, 0x72]);
    if u == 0xD {
      TwoUnits(BACKSLASH, 0x72, 0xA, [BACKSLASH, 0x6E]);
      ShortControls(BACKSLASH, 0x72);
    } else {
      OneUnit(u, 0xA, [BACKSLASH, 0x6E]);
      if u == 0xA {
        ShortControls(BACKSLASH, 0x6E);
      } else {
        OneControl(u);
      }
    }
  }

  /** The passes act on each unit by itself. */
  lemma EscapeUnit(u: unit, quoted: bool)
    ensures Escape([u], quoted) == Block(u, quoted)
  {
    OneUnit(u, BACKSLASH, [BACKSLASH, BACKSLASH]);
    if u == BACKSLASH {
      TwoUnits(BACKSLASH, BACKSLASH, QUOTE, [BACKSLASH, QUOTE]);
      PlainPair(BACKSLASH, BACKSLASH);
    } else {
      OneUnit(u, QUOTE, [BACKSLASH, QUOTE]);
      if u == QUOTE && quoted { PlainPair(BACKSLASH, QUOTE); } else { ControlsOfUnit(u); }
    }
  }

  lemma EscapeCons(s: Text, quoted: bool)
    requires s != []
    ensures Escape(s, quoted) == Block(s[0], quoted) + Escape(s[1..], quoted)
  {
    assert s == [s[0]] + s[1..];
    EscapeConcat([s[0]], s[1..], quoted);
    EscapeUnit(s[0], quoted);
  }

  lemma EscapeSnoc(s: Text, u: unit, quoted: bool)
    ensures Escape(s + [u], quoted) == Escape(s, quoted) + Block(u, quoted)
  {
    EscapeConcat(s, [u], quoted);
    EscapeUnit(u, quoted);
  }

  // ------------------------------------------------ decoding

  predicate IsHex(u: unit) { 0x30 <= u <= 0x39 || 0x61 <= u <= 0x66 || 0x41 <= u <= 0x46 }

  function HexValue(u: unit): int
    requires IsHex(u)
    ensures 0 <= HexValue(u) < 16
  {
    if u <= 0x39 then u - 0x30 else if u >= 0x61 then u - 0x61 + 10 else u - 0x41 + 10
  }

  predicate FourHex(t: Text, i: nat) {
    i + 4 <= |t| && IsHex(t[i]) && IsHex(t[i + 1]) && IsHex(t[i + 2]) && IsHex(t[i + 3])
  }

  function HexAt(t: Text, i: nat): unit
    requires FourHex(t, i)
  {
    HexValue(t[i]) * 4096 + HexValue(t[i + 1]) * 256 + HexValue(t[i + 2]) * 16 + HexValue(t[i + 3])
  }

  function Prepend(u: unit, r: Option<Text>): Option<Text> {
    if r.None? then None else Some([u] + r.value)
  }

  function Decode(t: Text): Option<Text> {
    if t == [] then Some([])
    else if t[0] != BACKSLASH then Prepend(t[0], Decode(t[1..]))
    else if |t| == 1 then None
    else if t[1] == 0x6E then Prepend(0xA, Decode(t[2..]))
    else if t[1] == 0x72 then Prepend(0xD, Decode(t[2..]))
    else if t[1] == 0x75 && FourHex(t, 2) then Prepend(HexAt(t, 2), Decode(t[6..]))
    else Prepend(t[1], Decode(t[2..]))
  }

  lemma HexRoundTrip(u: unit, t: Text)
    requires u < 256 && 6 <= |t| && t[2..6] == Hex4(u)
    ensures FourHex(t, 2) && HexAt(t, 2) == u
  {
    assert t[2] == t[2..6][0] && t[3] == t[2..6][1] && t[4] == t[2..6][2] && t[5] == t[2..6][3];
  }

  lemma DecodeBlock(u: unit, quoted: bool, rest: Text)
    ensures Decode(Block(u, quoted) + rest) == Prepend(u, Decode(rest))
  {
    var b := Block(u, quoted);
    CutConcat(b, rest);
    if u != BACKSLASH && u != 0xA && u != 0xD && Control(u) {
      assert (b + rest)[2..6] == Hex4(u);
      HexRoundTrip(u, b + rest);
      assert (b + rest)[6..] == rest;
    }
  }

  /** Decoding undoes escaping, whichever of the two escapers wrote the text. */
  lemma {:induction false} DecodeEscape(s: Text, quoted: bool)
    ensures Decode(Escape(s, quoted)) == Some(s)
  {
    if s != [] {
      EscapeCons(s, quoted);
      DecodeBlock(s[0], quoted, Escape(s[1..], quoted));
      DecodeEscape(s[1..], quoted);
      assert [s[0]] + s[1..] == s;
    }
  }

  function Onto(done: Text, r: Option<Text>): Option<Text> {
    if r.None? then None else Some(done + r.value)
  }

  lemma OntoPrepend(done: Text, u: unit, r: Option<Text>)
    ensures Onto(done, Prepend(u, r)) == Onto(done + [u], r)
  {
    if r.Some? { ConcatAssociates(done, [u], r.value); }
  }

  lemma OntoNothing(value: Text)
    ensures Onto([], Decode(value[0..])) == Decode(value)
  {
    assert value[0..] == value;
    if Decode(value).Some? { NilConcat(Decode(value).value); }
  }

  /** The decoder's index loop. */
  method DecodeEscapedText(value: Text) returns (r: Option<Text>)
    ensures r == Decode(value)
  {
    var decoded, index := [], 0;
    OntoNothing(value);
    while index < |value|
      invariant index <= |value|
      invariant Onto(decoded, Decode(value[index..])) == Decode(value)
    {
      ghost var rest := value[index..];
      var u := value[index];
      var size := 1;
      if u == BACKSLASH {
        if index + 1 >= |value| { return None; }
        u, size := value[index + 1], 2;
        if u == 0x6E {
          u := 0xA;
        } else if u == 0x72 {
          u := 0xD;
        } else if u == 0x75 && FourHex(value, index + 2) {
          u, size := HexAt(value, index + 2), 6;
        }
      }
      DecodeStep(value, index, u, size);
      OntoPrepend(decoded, u, Decode(value[index + size..]));
      decoded, index := decoded + [u], index + size;
    }
    assert decoded + [] == decoded;
    return Some(decoded);
  }

  lemma DecodeStep(value: Text, index: nat, u: unit, size: nat)
    requires index < |value|
    requires if value[index] != BACKSLASH then u == value[index] && size == 1
             else index + 1 < |value| &&
                  if value[index + 1] == 0x6E then u == 0xA && size == 2
                  else if value[index + 1] == 0x72 then u == 0xD && size == 2
                  else if value[index + 1] == 0x75 && FourHex(value, index + 2)
                  then u == HexAt(value, index + 2) && size == 6
                  else u == value[index + 1] && size == 2
    ensures index + size <= |value| && Decode(value[index..]) == Prepend(u, Decode(value[index + size..]))
  {
    var rest := value[index..];
    assert rest[size..] == value[index + size..];
    assert FourHex(value, index + 2) <==> FourHex(rest, 2);
  }
}
