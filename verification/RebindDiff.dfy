/**
 The structural difference shown before a declaration is rebound: one entry
 per place where two JSON values disagree, addressed by a JSON pointer
 (RFC 6901).
 */
module RebindDiff {
  import opened Bytes
  import opened JsonValues
  import opened Wrappers

  datatype Entry = Entry(path: string, pinned: Option<Value>, replacement: Option<Value>)

  /** The iteration order of a key set; any order without repetition will do. */
  type Order = set<string> -> seq<string>

  ghost predicate Enumeration(q: seq<string>, s: set<string>) {
    && (forall k :: k in q <==> k in s)
    && (forall i, j :: 0 <= i < j < |q| ==> q[i] != q[j])
  }

  ghost predicate Enumerates(order: Order) { forall s :: Enumeration(order(s), s) }

  // ------------------------------------------------ pointer segments

  function Replace(s: string, c: char, sub: string): string {
    if s == "" then "" else (if s[0] == c then sub else [s[0]]) + Replace(s[1..], c, sub)
  }

  function Escape(segment: string): string { Replace(Replace(segment, '~', "~0"), '/', "~1") }

  function Unescape(s: string): string {
    if s == "" then ""
    else if s[0] == '~' && |s| > 1 && s[1] == '1' then "/" + Unescape(s[2..])
    else if s[0] == '~' && |s| > 1 && s[1] == '0' then "~" + Unescape(s[2..])
    else [s[0]] + Unescape(s[1..])
  }

  function Decimal(n: nat): string {
    (if n < 10 then "" else Decimal(n / 10)) + ['0' + (n % 10) as char]
  }

  function FromDecimal(s: string): int {
    if s == "" then 0 else FromDecimal(s[..|s| - 1]) * 10 + (s[|s| - 1] as int - '0' as int)
  }

  /** An array index: digits without a leading zero, as in section 4 of RFC 6901. */
  predicate IsIndex(s: string) { FromDecimal(s) >= 0 && Decimal(FromDecimal(s)) == s }

  /** Segments joined, each behind its own slash. */
  function Render(segments: seq<string>): string {
    if segments == [] then "" else Render(segments[..|segments| - 1]) + "/" + segments[|segments| - 1]
  }

  /** The segments of a pointer, read from its end. */
  function Split(path: string): seq<string> {
    if path == "" then []
    else
      var last := path[|path| - 1];
      var before := Split(path[..|path| - 1]);
      if last == '/' then before + [""]
      else if before == [] then [[last]]
      else before[..|before| - 1] + [before[|before| - 1] + [last]]
  }

  predicate Plain(segments: seq<string>) { forall s <- segments :: '/' !in s }

  // ------------------------------------------------ the difference, as computed

  function Differences(order: Order, path: string, p: Option<Value>, r: Option<Value>): seq<Entry>
    decreases p.Some?, if p.Some? then p.value else Null
  {
    if p.Some? && r.Some? && p.value.Obj? && r.value.Obj? then
      var keys := order(p.value.members.Keys + r.value.members.Keys);
      MemberDifferences(order, path, p.value, r.value.members, keys)
    else if p.Some? && r.Some? && p.value.Arr? && r.value.Arr? then
      ItemDifferences(order, path, p.value, r.value.items, 0)
    else if p != r then [Entry(if path == "" then "/" else path, p, r)]
    else []
  }

  function MemberDifferences(order: Order, path: string, p: Value, r: map<string, Value>,
                             keys: seq<string>): seq<Entry>
    requires p.Obj?
    decreases true, p, |keys|
  {
    if keys == [] then []
    else
      var k := keys[0];
      Differences(order, path + "/" + Escape(k), Get(p.members, k), Get(r, k)) +
      MemberDifferences(order, path, p, r, keys[1..])
  }

  function Longer(a: seq<Value>, b: seq<Value>): nat { if |a| < |b| then |b| else |a| }

  function ItemDifferences(order: Order, path: string, p: Value, r: seq<Value>, i: nat): seq<Entry>
    requires p.Arr?
    decreases true, p, Longer(p.items, r) - i
  {
    if i >= Longer(p.items, r) then []
    else
      Differences(order, path + "/" + Decimal(i), At(p.items, i), At(r, i)) +
      ItemDifferences(order, path, p, r, i + 1)
  }

  /** The recursive collector pushes the same entries onto the shared list. */
  method CollectDifferences(order: Order, path: string, p: Option<Value>, r: Option<Value>, found: seq<Entry>)
    returns (all: seq<Entry>)
    ensures all == found + Differences(order, path, p, r)
    decreases p.Some?, if p.Some? then p.value else Null
  {
    all := found;
    if p.Some? && r.Some? && p.value.Obj? && r.value.Obj? {
      var keys := order(p.value.members.Keys + r.value.members.Keys);
      var i := 0;
      while i < |keys|
        invariant i <= |keys|
        invariant all + MemberDifferences(order, path, p.value, r.value.members, keys[i..]) ==
                  found + Differences(order, path, p, r)
      {
        var k := keys[i];
        var here := path + "/" + Escape(k);
        ConcatAssociates(all, Differences(order, here, Get(p.value.members, k), Get(r.value.members, k)),
                         MemberDifferences(order, path, p.value, r.value.members, keys[i + 1..]));
        assert keys[i..][1..] == keys[i + 1..];
        all := CollectDifferences(order, here, Get(p.value.members, k), Get(r.value.members, k), all);
        i := i + 1;
      }
    } else if p.Some? && r.Some? && p.value.Arr? && r.value.Arr? {
      var i := 0;
      while i < Longer(p.value.items, r.value.items)
        invariant all + ItemDifferences(order, path, p.value, r.value.items, i) ==
                  found + Differences(order, path, p, r)
      {
        var here := path + "/" + Decimal(i);
        ConcatAssociates(all, Differences(order, here, At(p.value.items, i), At(r.value.items, i)),
                         ItemDifferences(order, path, p.value, r.value.items, i + 1));
        all := CollectDifferences(order, here, At(p.value.items, i), At(r.value.items, i), all);
        i := i + 1;
      }
    } else if p != r {
      all := all + [Entry(if path == "" then "/" else path, p, r)];
    }
  }

  // ------------------------------------------------ segments are recovered from a pointer

  lemma {:induction false} EscapeLemma(s: string)
    ensures '/' !in Escape(s) && Unescape(Escape(s)) == s
  {
    if s != "" {
      EscapeLemma(s[1..]);
      var tail := Replace(s[1..], '~', "~0");
      if s[0] == '~' {
        ReplaceHead("~0", tail);
        assert Escape(s) == "~0" + Escape(s[1..]);
      } else {
        ReplaceHead([s[0]], tail);
        assert Escape(s) == (if s[0] == '/' then "~1" else [s[0]]) + Escape(s[1..]);
      }
    }
  }

  lemma ReplaceHead(head: string, tail: string)
    requires head == "~0" || |head| == 1
    ensures Replace(head + tail, '/', "~1") ==
            (if head == "/" then "~1" else head) + Replace(tail, '/', "~1")
  {
    assert (head + tail)[1..] == head[1..] + tail;
    if |head| == 1 {
      assert head[1..] + tail == tail;
    } else {
      assert head[1..] + tail == "0" + tail && ("0" + tail)[1..] == tail;
      assert "~" + ("0" + Replace(tail, '/', "~1")) == "~0" + Replace(tail, '/', "~1");
    }
  }

  lemma {:induction false} DecimalLemma(n: nat)
    ensures '/' !in Decimal(n) && FromDecimal(Decimal(n)) == n
  {
    var prefix := if n < 10 then "" else Decimal(n / 10);
    if n >= 10 { DecimalLemma(n / 10); }
    assert Decimal(n)[..|Decimal(n)| - 1] == prefix;
  }

  lemma RenderMore(segments: seq<string>, s: string)
    ensures Render(segments + [s]) == Render(segments) + "/" + s
  {
    assert (segments + [s])[..|segments|] == segments;
  }

  lemma {:induction false} SplitLast(path: string, s: string)
    requires '/' !in s
    ensures Split(path + "/" + s) == Split(path) + [s]
    decreases |s|
  {
    var text := path + "/" + s;
    if s == "" {
      assert text[..|text| - 1] == path;
    } else {
      var shorter := s[..|s| - 1];
      SplitLast(path, shorter);
      assert text[..|text| - 1] == path + "/" + shorter;
      assert (Split(path) + [shorter])[..|Split(path)|] == Split(path);
      assert shorter + [s[|s| - 1]] == s;
    }
  }

  lemma {:induction false} SplitRender(segments: seq<string>)
    requires Plain(segments)
    ensures Split(Render(segments)) == segments
  {
    if segments != [] {
      var before := segments[..|segments| - 1];
      SplitRender(before);
      SplitLast(Render(before), segments[|segments| - 1]);
      assert segments == before + [segments[|segments| - 1]];
    }
  }

  // ------------------------------------------------ leaves: the difference addressed by segments

  datatype Leaf = Leaf(segments: seq<string>, pinned: Option<Value>, replacement: Option<Value>)

  function Under(segment: string, leaves: seq<Leaf>): seq<Leaf> {
    if leaves == [] then []
    else [leaves[0].(segments := [segment] + leaves[0].segments)] + Under(segment, leaves[1..])
  }

  function Leaves(order: Order, p: Option<Value>, r: Option<Value>): seq<Leaf>
    decreases p.Some?, if p.Some? then p.value else Null
  {
    if p.Some? && r.Some? && p.value.Obj? && r.value.Obj? then
      MemberLeaves(order, p.value, r.value.members, order(p.value.members.Keys + r.value.members.Keys))
    else if p.Some? && r.Some? && p.value.Arr? && r.value.Arr? then
      ItemLeaves(order, p.value, r.value.items, 0)
    else if p != r then [Leaf([], p, r)]
    else []
  }

  function MemberLeaves(order: Order, p: Value, r: map<string, Value>, keys: seq<string>): seq<Leaf>
    requires p.Obj?
    decreases true, p, |keys|
  {
    if keys == [] then []
    else
      Under(Escape(keys[0]), Leaves(order, Get(p.members, keys[0]), Get(r, keys[0]))) +
      MemberLeaves(order, p, r, keys[1..])
  }

  function ItemLeaves(order: Order, p: Value, r: seq<Value>, i: nat): seq<Leaf>
    requires p.Arr?
    decreases true, p, Longer(p.items, r) - i
  {
    if i >= Longer(p.items, r) then []
    else
      Under(Decimal(i), Leaves(order, At(p.items, i), At(r, i))) + ItemLeaves(order, p, r, i + 1)
  }

  function Named(at: seq<string>, leaf: Leaf): Entry {
    var path := Render(at + leaf.segments);
    Entry(if path == "" then "/" else path, leaf.pinned, leaf.replacement)
  }

  function AllNamed(at: seq<string>, leaves: seq<Leaf>): seq<Entry> {
    if leaves == [] then [] else [Named(at, leaves[0])] + AllNamed(at, leaves[1..])
  }

  lemma ConsConcat<T>(a: seq<T>, b: seq<T>)
    requires a != []
    ensures (a + b)[0] == a[0] && (a + b)[1..] == a[1..] + b
  {
  }

  lemma {:induction false} AllNamedConcat(at: seq<string>, a: seq<Leaf>, b: seq<Leaf>)
    ensures AllNamed(at, a + b) == AllNamed(at, a) + AllNamed(at, b)
  {
    if a == [] {
      NilConcat(b);
    } else {
      AllNamedConcat(at, a[1..], b);
      ConsConcat(a, b);
      ConcatAssociates([Named(at, a[0])], AllNamed(at, a[1..]), AllNamed(at, b));
    }
  }

  lemma {:induction false} AllNamedUnder(at: seq<string>, segment: string, leaves: seq<Leaf>)
    ensures AllNamed(at, Under(segment, leaves)) == AllNamed(at + [segment], leaves)
  {
    if leaves != [] {
      AllNamedUnder(at, segment, leaves[1..]);
      assert at + ([segment] + leaves[0].segments) == at + [segment] + leaves[0].segments;
    }
  }

  /** `all` names the leaves one by one. */
  ghost predicate Maps(all: seq<Leaf> -> seq<Entry>, name: Leaf -> Entry, leaves: seq<Leaf>) {
    all(leaves) == if leaves == [] then [] else [name(leaves[0])] + all(leaves[1..])
  }

  lemma {:induction false} MappedAt(all: seq<Leaf> -> seq<Entry>, name: Leaf -> Entry, leaves: seq<Leaf>, i: nat)
    requires i < |leaves| && forall q :: Maps(all, name, q)
    ensures i < |all(leaves)| && all(leaves)[i] == name(leaves[i])
    decreases i
  {
    assert Maps(all, name, leaves);
    if i > 0 {
      MappedAt(all, name, leaves[1..], i - 1);
    }
  }

  lemma AllNamedAt(at: seq<string>, leaves: seq<Leaf>, i: nat)
    requires i < |leaves|
    ensures |AllNamed(at, leaves)| == |leaves| && AllNamed(at, leaves)[i] == Named(at, leaves[i])
  {
    AllNamedLength(at, leaves);
    var all, name := (q: seq<Leaf>) => AllNamed(at, q), (l: Leaf) => Named(at, l);
    assert forall q :: Maps(all, name, q);
    MappedAt(all, name, leaves, i);
  }

  lemma {:induction false} DifferencesAreLeaves(order: Order, at: seq<string>, p: Option<Value>, r: Option<Value>)
    ensures Differences(order, Render(at), p, r) == AllNamed(at, Leaves(order, p, r))
    decreases p.Some?, if p.Some? then p.value else Null
  {
    if p.Some? && r.Some? && p.value.Obj? && r.value.Obj? {
      var keys := order(p.value.members.Keys + r.value.members.Keys);
      MembersAreLeaves(order, at, p.value, r.value.members, keys);
    } else if p.Some? && r.Some? && p.value.Arr? && r.value.Arr? {
      ItemsAreLeaves(order, at, p.value, r.value.items, 0);
    } else {
      NilConcat(at);
    }
  }

  lemma {:induction false} MembersAreLeaves(order: Order, at: seq<string>, p: Value, r: map<string, Value>,
                                            keys: seq<string>)
    requires p.Obj?
    ensures MemberDifferences(order, Render(at), p, r, keys) == AllNamed(at, MemberLeaves(order, p, r, keys))
    decreases true, p, |keys|
  {
    if keys != [] {
      var k := keys[0];
      var here := Leaves(order, Get(p.members, k), Get(r, k));
      RenderMore(at, Escape(k));
      DifferencesAreLeaves(order, at + [Escape(k)], Get(p.members, k), Get(r, k));
      MembersAreLeaves(order, at, p, r, keys[1..]);
      AllNamedUnder(at, Escape(k), here);
      AllNamedConcat(at, Under(Escape(k), here), MemberLeaves(order, p, r, keys[1..]));
    }
  }

  lemma {:induction false} ItemsAreLeaves(order: Order, at: seq<string>, p: Value, r: seq<Value>, i: nat)
    requires p.Arr?
    ensures ItemDifferences(order, Render(at), p, r, i) == AllNamed(at, ItemLeaves(order, p, r, i))
    decreases true, p, Longer(p.items, r) - i
  {
    if i < Longer(p.items, r) {
      var here := Leaves(order, At(p.items, i), At(r, i));
      RenderMore(at, Decimal(i));
      DifferencesAreLeaves(order, at + [Decimal(i)], At(p.items, i), At(r, i));
      ItemsAreLeaves(order, at, p, r, i + 1);
      AllNamedUnder(at, Decimal(i), here);
      AllNamedConcat(at, Under(Decimal(i), here), ItemLeaves(order, p, r, i + 1));
    }
  }

  // ------------------------------------------------ no two entries share a path

  predicate Shaped(leaves: seq<Leaf>) {
    && (forall l <- leaves :: Plain(l.segments))
    && (forall i, j :: 0 <= i < j < |leaves| ==> leaves[i].segments != leaves[j].segments)
    && (forall l <- leaves :: l.segments == [] ==> |leaves| == 1)
  }

  /** Leaves below one node: each goes through a child named in `names`. */
  ghost predicate Through(leaves: seq<Leaf>, names: iset<string>) {
    forall l <- leaves :: l.segments != [] && l.segments[0] in names
  }

  lemma {:induction false} UnderAt(segment: string, leaves: seq<Leaf>)
    ensures |Under(segment, leaves)| == |leaves|
    ensures forall i | 0 <= i < |leaves| ::
              Under(segment, leaves)[i] == leaves[i].(segments := [segment] + leaves[i].segments)
  {
    if leaves != [] { UnderAt(segment, leaves[1..]); }
  }

  lemma UnderShaped(segment: string, leaves: seq<Leaf>)
    requires '/' !in segment && Shaped(leaves)
    ensures Shaped(Under(segment, leaves)) && Through(Under(segment, leaves), iset{segment})
  {
    var under := Under(segment, leaves);
    UnderAt(segment, leaves);
    forall i, j | 0 <= i < j < |under|
      ensures under[i].segments != under[j].segments
    {
      assert under[i].segments[1..] == leaves[i].segments && under[j].segments[1..] == leaves[j].segments;
    }
  }

  lemma ShapedConcat(a: seq<Leaf>, b: seq<Leaf>, na: iset<string>, nb: iset<string>)
    requires Shaped(a) && Through(a, na) && Shaped(b) && Through(b, nb) && na !! nb
    ensures Shaped(a + b) && Through(a + b, na + nb)
  {
    var all := a + b;
    forall i, j | 0 <= i < j < |all|
      ensures all[i].segments != all[j].segments
    {
      if i < |a| <= j {
        assert all[i] in a && all[j] in b;
      }
    }
  }

  ghost function KeyNames(keys: seq<string>): iset<string> { iset s: string | Unescape(s) in keys }

  ghost function IndexNames(i: nat): iset<string> { iset s: string | FromDecimal(s) >= i }

  lemma {:induction false} LeavesShaped(order: Order, p: Option<Value>, r: Option<Value>)
    requires Enumerates(order)
    ensures Shaped(Leaves(order, p, r))
    decreases p.Some?, if p.Some? then p.value else Null
  {
    if p.Some? && r.Some? && p.value.Obj? && r.value.Obj? {
      var all := p.value.members.Keys + r.value.members.Keys;
      assert Enumeration(order(all), all);
      MemberLeavesShaped(order, p.value, r.value.members, order(all));
    } else if p.Some? && r.Some? && p.value.Arr? && r.value.Arr? {
      ItemLeavesShaped(order, p.value, r.value.items, 0);
    }
  }

  lemma {:induction false} MemberLeavesShaped(order: Order, p: Value, r: map<string, Value>, keys: seq<string>)
    requires Enumerates(order) && p.Obj?
    requires forall i, j :: 0 <= i < j < |keys| ==> keys[i] != keys[j]
    ensures Shaped(MemberLeaves(order, p, r, keys)) && Through(MemberLeaves(order, p, r, keys), KeyNames(keys))
    decreases true, p, |keys|
  {
    if keys != [] {
      var k := keys[0];
      var here := Leaves(order, Get(p.members, k), Get(r, k));
      LeavesShaped(order, Get(p.members, k), Get(r, k));
      EscapeLemma(k);
      UnderShaped(Escape(k), here);
      MemberLeavesShaped(order, p, r, keys[1..]);
      ShapedConcat(Under(Escape(k), here), MemberLeaves(order, p, r, keys[1..]),
                   iset{Escape(k)}, KeyNames(keys[1..]));
    }
  }

  lemma {:induction false} ItemLeavesShaped(order: Order, p: Value, r: seq<Value>, i: nat)
    requires Enumerates(order) && p.Arr?
    ensures Shaped(ItemLeaves(order, p, r, i)) && Through(ItemLeaves(order, p, r, i), IndexNames(i))
    decreases true, p, Longer(p.items, r) - i
  {
    if i < Longer(p.items, r) {
      var here := Leaves(order, At(p.items, i), At(r, i));
      LeavesShaped(order, At(p.items, i), At(r, i));
      DecimalLemma(i);
      UnderShaped(Decimal(i), here);
      ItemLeavesShaped(order, p, r, i + 1);
      ShapedConcat(Under(Decimal(i), here), ItemLeaves(order, p, r, i + 1),
                   iset{Decimal(i)}, IndexNames(i + 1));
    }
  }

  lemma RenderNonEmpty(segments: seq<string>)
    requires segments != []
    ensures Render(segments) != ""
  {
    assert |Render(segments)| >= 1;
  }

  /** Every diff addresses each place at most once. */
  lemma PathsAreDistinct(order: Order, p: Value, r: Value, i: nat, j: nat)
    requires Enumerates(order)
    requires i < j < |Differences(order, "", Some(p), Some(r))|
    ensures Differences(order, "", Some(p), Some(r))[i].path != Differences(order, "", Some(p), Some(r))[j].path
  {
    var leaves := Leaves(order, Some(p), Some(r));
    DifferencesAreLeaves(order, [], Some(p), Some(r));
    LeavesShaped(order, Some(p), Some(r));
    AllNamedLength([], leaves);
    AllNamedAt([], leaves, i);
    AllNamedAt([], leaves, j);
    assert leaves[i] in leaves && leaves[j] in leaves;
    LeafPath(leaves[i]);
    LeafPath(leaves[j]);
  }

  lemma {:induction false} AllNamedLength(at: seq<string>, leaves: seq<Leaf>)
    ensures |AllNamed(at, leaves)| == |leaves|
  {
    if leaves != [] { AllNamedLength(at, leaves[1..]); }
  }

  lemma LeafPath(leaf: Leaf)
    requires Plain(leaf.segments) && leaf.segments != []
    ensures Split(Named([], leaf).path) == leaf.segments
  {
    assert [] + leaf.segments == leaf.segments;
    RenderNonEmpty(leaf.segments);
    SplitRender(leaf.segments);
  }

  // ------------------------------------------------ applying a diff

  function PutMember(m: map<string, Value>, k: string, v: Option<Value>): map<string, Value> {
    if v.None? then m - {k} else m[k := v.value]
  }

  /** A removed item takes everything behind it along: removals always form a suffix. */
  function PutItem(a: seq<Value>, i: nat, v: Option<Value>): seq<Value> {
    if v.None? then (if i < |a| then a[..i] else a)
    else if i < |a| then a[i := v.value]
    else a + [v.value]
  }

  /** Replaces the value at a place; segments that name no place change nothing. */
  function Place(v: Option<Value>, segments: seq<string>, replacement: Option<Value>): Option<Value>
    decreases |segments|
  {
    if segments == [] then replacement
    else if v.Some? && v.value.Obj? then
      var k := Unescape(segments[0]);
      Some(Obj(PutMember(v.value.members, k, Place(Get(v.value.members, k), segments[1..], replacement))))
    else if v.Some? && v.value.Arr? && IsIndex(segments[0]) then
      var i: nat := FromDecimal(segments[0]);
      Some(Arr(PutItem(v.value.items, i, Place(At(v.value.items, i), segments[1..], replacement))))
    else v
  }

  function PlaceAll(v: Option<Value>, leaves: seq<Leaf>): Option<Value>
    decreases |leaves|
  {
    if leaves == [] then v
    else PlaceAll(Place(v, leaves[0].segments, leaves[0].replacement), leaves[1..])
  }

  lemma {:induction false} PlaceAllConcat(v: Option<Value>, a: seq<Leaf>, b: seq<Leaf>)
    ensures PlaceAll(v, a + b) == PlaceAll(PlaceAll(v, a), b)
    decreases |a|
  {
    if a == [] {
      NilConcat(b);
    } else {
      ConsConcat(a, b);
      PlaceAllConcat(Place(v, a[0].segments, a[0].replacement), a[1..], b);
    }
  }

  lemma PutMemberLaws(m: map<string, Value>, k: string, x: Option<Value>, y: Option<Value>)
    ensures Get(PutMember(m, k, x), k) == x
    ensures PutMember(PutMember(m, k, x), k, y) == PutMember(m, k, y)
    ensures PutMember(m, k, Get(m, k)) == m
  {
  }

  /** Leaves below a member act on that member alone. */
  lemma {:induction false} PlaceAllMember(m: map<string, Value>, k: string, leaves: seq<Leaf>)
    ensures PlaceAll(Some(Obj(m)), Under(Escape(k), leaves)) ==
            Some(Obj(PutMember(m, k, PlaceAll(Get(m, k), leaves))))
    decreases |leaves|
  {
    if leaves == [] {
      PutMemberLaws(m, k, None, None);
    } else {
      var l := leaves[0];
      var x := Place(Get(m, k), l.segments, l.replacement);
      EscapeLemma(k);
      assert ([Escape(k)] + l.segments)[1..] == l.segments;
      PlaceAllMember(PutMember(m, k, x), k, leaves[1..]);
      PutMemberLaws(m, k, x, PlaceAll(x, leaves[1..]));
      UnderCons(Escape(k), leaves);
    }
  }

  lemma UnderCons(segment: string, leaves: seq<Leaf>)
    requires leaves != []
    ensures Under(segment, leaves)[0] == leaves[0].(segments := [segment] + leaves[0].segments)
    ensures Under(segment, leaves)[1..] == Under(segment, leaves[1..])
  {
  }

  lemma PutItemLaws(a: seq<Value>, i: nat, x: Value, y: Option<Value>)
    requires i < |a|
    ensures At(PutItem(a, i, Some(x)), i) == Some(x)
    ensures PutItem(PutItem(a, i, Some(x)), i, y) == PutItem(a, i, y)
    ensures PutItem(a, i, At(a, i)) == a
  {
  }

  lemma PlaceKeepsContainers(v: Option<Value>, segments: seq<string>, replacement: Option<Value>)
    requires v.Some? && segments != []
    ensures Place(v, segments, replacement).Some?
  {
  }

  lemma {:induction false} PlaceAllItem(a: seq<Value>, i: nat, leaves: seq<Leaf>)
    requires i < |a| && forall l <- leaves :: l.segments != []
    ensures PlaceAll(Some(Arr(a)), Under(Decimal(i), leaves)) ==
            Some(Arr(PutItem(a, i, PlaceAll(At(a, i), leaves))))
    decreases |leaves|
  {
    if leaves == [] {
      PutItemLaws(a, i, a[i], None);
    } else {
      var l := leaves[0];
      assert l in leaves;
      PlaceKeepsContainers(At(a, i), l.segments, l.replacement);
      var x := Place(At(a, i), l.segments, l.replacement);
      DecimalLemma(i);
      assert ([Decimal(i)] + l.segments)[1..] == l.segments;
      PlaceAllItem(PutItem(a, i, x), i, leaves[1..]);
      PutItemLaws(a, i, x.value, PlaceAll(x, leaves[1..]));
      UnderCons(Decimal(i), leaves);
    }
  }

  lemma PlaceOneItem(a: seq<Value>, i: nat, leaf: Leaf)
    requires leaf.segments == []
    ensures PlaceAll(Some(Arr(a)), Under(Decimal(i), [leaf])) == Some(Arr(PutItem(a, i, leaf.replacement)))
  {
    DecimalLemma(i);
    UnderCons(Decimal(i), [leaf]);
    var under := Under(Decimal(i), [leaf]);
    assert [leaf][1..] == [] && under[1..] == [] && under[0].segments[1..] == [];
    assert Place(At(a, i), [], leaf.replacement) == leaf.replacement;
    assert PlaceAll(Some(Arr(a)), under) == Place(Some(Arr(a)), under[0].segments, leaf.replacement);
  }

  /** Applied in order to the pinned value, the leaves produce the replacement. */
  lemma {:induction false} LeavesReconstruct(order: Order, p: Option<Value>, r: Option<Value>)
    requires Enumerates(order)
    ensures PlaceAll(p, Leaves(order, p, r)) == r
    decreases p.Some?, if p.Some? then p.value else Null
  {
    if p.Some? && r.Some? && p.value.Obj? && r.value.Obj? {
      var all := p.value.members.Keys + r.value.members.Keys;
      assert Enumeration(order(all), all);
      MembersReconstruct(order, p.value, r.value.members, order(all), p.value.members);
    } else if p.Some? && r.Some? && p.value.Arr? && r.value.Arr? {
      ItemsReconstruct(order, p.value, r.value.items, 0, p.value.items);
    }
  }

  lemma {:induction false} MembersReconstruct(order: Order, p: Value, r: map<string, Value>, keys: seq<string>,
                                              now: map<string, Value>)
    requires Enumerates(order) && p.Obj?
    requires forall i, j :: 0 <= i < j < |keys| ==> keys[i] != keys[j]
    requires forall k :: Get(now, k) == if k in keys then Get(p.members, k) else Get(r, k)
    ensures PlaceAll(Some(Obj(now)), MemberLeaves(order, p, r, keys)) == Some(Obj(r))
    decreases true, p, |keys|
  {
    if keys == [] {
      SameMembers(now, r);
    } else {
      var k := keys[0];
      var here := Leaves(order, Get(p.members, k), Get(r, k));
      LeavesReconstruct(order, Get(p.members, k), Get(r, k));
      PlaceAllMember(now, k, here);
      PlaceAllConcat(Some(Obj(now)), Under(Escape(k), here), MemberLeaves(order, p, r, keys[1..]));
      MembersReconstruct(order, p, r, keys[1..], PutMember(now, k, Get(r, k)));
    }
  }

  lemma SameMembers(a: map<string, Value>, b: map<string, Value>)
    requires forall k :: Get(a, k) == Get(b, k)
    ensures a == b
  {
    forall k: string ensures k in a <==> k in b { assert Get(a, k) == Get(b, k); }
    forall k | k in a ensures a[k] == b[k] { assert Get(a, k) == Get(b, k); }
  }

  /** The array once its first `i` places are done. */
  function Done(p: seq<Value>, r: seq<Value>, i: nat): seq<Value> {
    if i > |r| then r else r[..i] + (if i < |p| then p[i..] else [])
  }

  lemma DoneMore(p: seq<Value>, r: seq<Value>, i: nat)
    requires i < Longer(p, r)
    ensures i < |p| && i < |r| ==> i < |Done(p, r, i)| && Done(p, r, i)[i] == p[i]
    ensures PutItem(Done(p, r, i), i, At(r, i)) == Done(p, r, i + 1)
  {
    var put := PutItem(Done(p, r, i), i, At(r, i));
    if i >= |r| {
      assert put == r;
      assert i == |r| ==> r[..i] == r;
    } else if i < |p| {
      assert put == r[..i + 1] + p[i + 1..];
    } else {
      assert put == r[..i + 1];
    }
  }

  lemma {:induction false} ItemsReconstruct(order: Order, p: Value, r: seq<Value>, i: nat, now: seq<Value>)
    requires Enumerates(order) && p.Arr? && i <= Longer(p.items, r) && now == Done(p.items, r, i)
    ensures PlaceAll(Some(Arr(now)), ItemLeaves(order, p, r, i)) == Some(Arr(r))
    decreases true, p, Longer(p.items, r) - i
  {
    if i == Longer(p.items, r) {
      assert now == r;
    } else {
      var here := Leaves(order, At(p.items, i), At(r, i));
      PlaceAllConcat(Some(Arr(now)), Under(Decimal(i), here), ItemLeaves(order, p, r, i + 1));
      DoneMore(p.items, r, i);
      if i < |r| && i < |p.items| {
        LeavesReconstruct(order, At(p.items, i), At(r, i));
        LeavesShaped(order, At(p.items, i), At(r, i));
        PlaceAtItem(now, i, here);
      } else {
        PlaceOneItem(now, i, here[0]);
      }
      ItemsReconstruct(order, p, r, i + 1, PutItem(now, i, At(r, i)));
    }
  }

  lemma PlaceAtItem(a: seq<Value>, i: nat, leaves: seq<Leaf>)
    requires i < |a| && Shaped(leaves)
    ensures PlaceAll(Some(Arr(a)), Under(Decimal(i), leaves)) ==
            Some(Arr(PutItem(a, i, PlaceAll(At(a, i), leaves))))
  {
    if forall l <- leaves :: l.segments != [] {
      PlaceAllItem(a, i, leaves);
    } else {
      PlaceOneItem(a, i, leaves[0]);
    }
  }

  lemma {:induction false} EqualHasNoLeaves(order: Order, p: Option<Value>)
    ensures Leaves(order, p, p) == []
    decreases p.Some?, if p.Some? then p.value else Null
  {
    if p.Some? && p.value.Obj? {
      EqualMembersHaveNoLeaves(order, p.value, order(p.value.members.Keys + p.value.members.Keys));
    } else if p.Some? && p.value.Arr? {
      EqualItemsHaveNoLeaves(order, p.value, 0);
    }
  }

  lemma {:induction false} EqualMembersHaveNoLeaves(order: Order, p: Value, keys: seq<string>)
    requires p.Obj?
    ensures MemberLeaves(order, p, p.members, keys) == []
    decreases true, p, |keys|
  {
    if keys != [] {
      EqualHasNoLeaves(order, Get(p.members, keys[0]));
      EqualMembersHaveNoLeaves(order, p, keys[1..]);
    }
  }

  lemma {:induction false} EqualItemsHaveNoLeaves(order: Order, p: Value, i: nat)
    requires p.Arr?
    ensures ItemLeaves(order, p, p.items, i) == []
    decreases true, p, |p.items| - i
  {
    if i < |p.items| {
      EqualHasNoLeaves(order, At(p.items, i));
      EqualItemsHaveNoLeaves(order, p, i + 1);
    }
  }

  // ------------------------------------------------ the entries alone

  /**
   The place an entry of a diff against `pinned` speaks of. The text "/" names
   both the whole value and the member with an empty key; the recorded old
   value tells them apart.
   */
  function Segments(pinned: Value, e: Entry): seq<string> {
    if e.path == "/" && e.pinned == Some(pinned) then [] else Split(e.path)
  }

  function ApplyAll(pinned: Value, v: Option<Value>, entries: seq<Entry>): Option<Value>
    decreases |entries|
  {
    if entries == [] then v
    else ApplyAll(pinned, Place(v, Segments(pinned, entries[0]), entries[0].replacement), entries[1..])
  }

  /** A diff is empty exactly when there is nothing to rebind. */
  lemma EmptyIffEqual(order: Order, p: Value, r: Value)
    requires Enumerates(order)
    ensures Differences(order, "", Some(p), Some(r)) == [] <==> p == r
  {
    DifferencesAreLeaves(order, [], Some(p), Some(r));
    AllNamedLength([], Leaves(order, Some(p), Some(r)));
    LeavesReconstruct(order, Some(p), Some(r));
    EqualHasNoLeaves(order, Some(p));
  }

  /** Where the leaves come from: a leaf below the root records a part of the root. */
  predicate Locatable(p: Value, leaf: Leaf) {
    if leaf.segments == [] then leaf.pinned == Some(p)
    else Plain(leaf.segments) && (leaf.segments == [""] ==> leaf.pinned != Some(p))
  }

  lemma LeafIsLocated(p: Value, leaf: Leaf)
    requires Locatable(p, leaf)
    ensures Segments(p, Named([], leaf)) == leaf.segments
  {
    assert [] + leaf.segments == leaf.segments;
    if leaf.segments != [] {
      LeafPath(leaf);
      RenderNonEmpty(leaf.segments);
      assert Split("/") == Split("") + [""] by { SplitLast("", ""); }
    }
  }

  lemma {:induction false} ApplyNamed(p: Value, v: Option<Value>, leaves: seq<Leaf>)
    requires forall l <- leaves :: Locatable(p, l)
    ensures ApplyAll(p, v, AllNamed([], leaves)) == PlaceAll(v, leaves)
    decreases |leaves|
  {
    if leaves != [] {
      assert leaves[0] in leaves;
      LeafIsLocated(p, leaves[0]);
      ApplyNamed(p, Place(v, leaves[0].segments, leaves[0].replacement), leaves[1..]);
    }
  }

  lemma {:induction false} MemberLeavesLocatable(order: Order, p: Value, r: map<string, Value>, keys: seq<string>)
    requires Enumerates(order) && p.Obj?
    ensures forall l <- MemberLeaves(order, p, r, keys) :: l.segments == [""] ==> l.pinned != Some(p)
    decreases |keys|
  {
    if keys != [] {
      var k := keys[0];
      var here := Leaves(order, Get(p.members, k), Get(r, k));
      MemberLeavesLocatable(order, p, r, keys[1..]);
      UnderAt(Escape(k), here);
      LeafAtRoot(order, Get(p.members, k), Get(r, k));
      forall l | l in Under(Escape(k), here) && l.segments == [""]
        ensures l.pinned != Some(p)
      {
        var i :| 0 <= i < |here| && Under(Escape(k), here)[i] == l;
        assert l.segments[1..] == here[i].segments;
        if k in p.members { NoSelfMember(p, k); }
      }
    }
  }

  lemma LeafAtRoot(order: Order, p: Option<Value>, r: Option<Value>)
    requires Enumerates(order)
    ensures forall l <- Leaves(order, p, r) :: l.segments == [] ==> l.pinned == p
  {
    if p.Some? && r.Some? && p.value.Obj? && r.value.Obj? {
      var all := p.value.members.Keys + r.value.members.Keys;
      assert Enumeration(order(all), all);
      MemberLeavesShaped(order, p.value, r.value.members, order(all));
    } else if p.Some? && r.Some? && p.value.Arr? && r.value.Arr? {
      ItemLeavesShaped(order, p.value, r.value.items, 0);
    }
  }

  lemma LeavesLocatable(order: Order, p: Value, r: Value)
    requires Enumerates(order)
    ensures forall l <- Leaves(order, Some(p), Some(r)) :: Locatable(p, l)
  {
    LeavesShaped(order, Some(p), Some(r));
    LeafAtRoot(order, Some(p), Some(r));
    if p.Obj? && r.Obj? {
      MemberLeavesLocatable(order, p, r.members, order(p.members.Keys + r.members.Keys));
    } else if p.Arr? && r.Arr? {
      ItemLeavesShaped(order, p, r.items, 0);
      EmptyIsNoIndex(order, p, r.items, 0);
    }
  }

  lemma {:induction false} EmptyIsNoIndex(order: Order, p: Value, r: seq<Value>, i: nat)
    requires p.Arr?
    ensures forall l <- ItemLeaves(order, p, r, i) :: l.segments != [] && l.segments[0] != ""
    decreases Longer(p.items, r) - i
  {
    if i < Longer(p.items, r) {
      var here := Leaves(order, At(p.items, i), At(r, i));
      UnderAt(Decimal(i), here);
      EmptyIsNoIndex(order, p, r, i + 1);
    }
  }

  /** Applying the displayed entries to the pinned declaration yields the replacement. */
  lemma EntriesReconstruct(order: Order, p: Value, r: Value)
    requires Enumerates(order)
    ensures ApplyAll(p, Some(p), Differences(order, "", Some(p), Some(r))) == Some(r)
  {
    DifferencesAreLeaves(order, [], Some(p), Some(r));
    LeavesLocatable(order, p, r);
    ApplyNamed(p, Some(p), Leaves(order, Some(p), Some(r)));
    LeavesReconstruct(order, Some(p), Some(r));
  }

  lemma OnlyOne(q: seq<string>, k: string)
    requires Enumeration(q, {k})
    ensures q == [k]
  {
    assert k in {k};
    assert |q| > 1 ==> q[0] != q[1];
    forall i | 0 <= i < |q| ensures q[i] == k { assert q[i] in q; }
  }

  // ------------------------------------------------ the displayed pointers alone

  /** Applies the entries at exactly the places their pointers name, with segments read as in RFC 6901, section 4. */
  function ApplyPointers(v: Option<Value>, entries: seq<Entry>): Option<Value>
    decreases |entries|
  {
    if entries == [] then v
    else ApplyPointers(Place(v, Split(entries[0].path), entries[0].replacement), entries[1..])
  }

  predicate BothHold(p: Value, r: Value) { (p.Obj? && r.Obj?) || (p.Arr? && r.Arr?) }

  lemma {:induction false} PointersReach(v: Option<Value>, leaves: seq<Leaf>)
    requires forall l <- leaves :: Plain(l.segments) && l.segments != []
    ensures ApplyPointers(v, AllNamed([], leaves)) == PlaceAll(v, leaves)
    decreases |leaves|
  {
    if leaves != [] {
      assert leaves[0] in leaves;
      LeafPath(leaves[0]);
      PointersReach(Place(v, leaves[0].segments, leaves[0].replacement), leaves[1..]);
    }
  }

  /** Below a shared container no entry is about the whole value. */
  lemma NoRootLeaf(order: Order, p: Value, r: Value)
    requires Enumerates(order) && BothHold(p, r)
    ensures forall l <- Leaves(order, Some(p), Some(r)) :: Plain(l.segments) && l.segments != []
  {
    LeavesShaped(order, Some(p), Some(r));
    if p.Obj? {
      var all := p.members.Keys + r.members.Keys;
      assert Enumeration(order(all), all);
      MemberLeavesShaped(order, p, r.members, order(all));
    } else {
      ItemLeavesShaped(order, p, r.items, 0);
    }
  }

  /** The pointer "/" names the member with the empty key, never the whole value. */
  lemma RootPointerMisses(p: Value, r: Value)
    requires p != r && !BothHold(p, r)
    ensures Place(Some(p), Split("/"), Some(r)) != Some(r)
  {
    assert Split("/") == Split("") + [""] by { SplitLast("", ""); }
    assert Split("/") == [""];
  }

  /**
   The displayed pointers, read as pointers and nothing else, turn the pinned
   value into the replacement exactly when the two are equal, both objects, or
   both arrays.
   */
  lemma PointersReconstructIff(order: Order, p: Value, r: Value)
    requires Enumerates(order)
    ensures ApplyPointers(Some(p), Differences(order, "", Some(p), Some(r))) == Some(r)
            <==> p == r || BothHold(p, r)
  {
    DifferencesAreLeaves(order, [], Some(p), Some(r));
    LeavesReconstruct(order, Some(p), Some(r));
    if BothHold(p, r) {
      NoRootLeaf(order, p, r);
      PointersReach(Some(p), Leaves(order, Some(p), Some(r)));
    } else if p != r {
      RootPointerMisses(p, r);
    }
  }

  /** A rebind compares two declarations, which are objects, so there the pointers alone are enough. */
  lemma DeclarationsReconstruct(order: Order, pinned: map<string, Value>, active: map<string, Value>)
    requires Enumerates(order)
    ensures ApplyPointers(Some(Obj(pinned)), Differences(order, "", Some(Obj(pinned)), Some(Obj(active))))
            == Some(Obj(active))
  {
    PointersReconstructIff(order, Obj(pinned), Obj(active));
  }

  /**
   For every change of a whole value, the change of an object's member with the
   empty key displays the very same entry.
   */
  lemma RootPathIsAmbiguous(order: Order, p: Value, r: Value)
    requires Enumerates(order) && p != r && !BothHold(p, r)
    ensures Differences(order, "", Some(Obj(map["" := p])), Some(Obj(map["" := r])))
            == Differences(order, "", Some(p), Some(r))
            == [Entry("/", Some(p), Some(r))]
  {
    var outer, outer' := Obj(map["" := p]), Obj(map["" := r]);
    var all := outer.members.Keys + outer'.members.Keys;
    var keys := order(all);
    assert all == {""};
    OnlyOne(keys, "");
    assert "" + "/" + Escape("") == "/";
    assert MemberDifferences(order, "", outer, outer'.members, keys[1..]) == [];
    assert Get(outer.members, "") == Some(p) && Get(outer'.members, "") == Some(r);
    assert Differences(order, "/", Some(p), Some(r)) == [Entry("/", Some(p), Some(r))];
  }
}
