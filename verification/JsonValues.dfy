/** JSON values as the release tools hold them; member order carries no meaning. */
module JsonValues {
  import opened Wrappers

  datatype Value =
    | Null
    | Bool(flag: bool)
    | Int(value: int)
    | Float(digits: string)
    | Str(text: string)
    | Arr(items: seq<Value>)
    | Obj(members: map<string, Value>)

  function Get(m: map<string, Value>, k: string): Option<Value> {
    if k in m then Some(m[k]) else None
  }

  function At(a: seq<Value>, i: nat): Option<Value> {
    if i < |a| then Some(a[i]) else None
  }

  /** No object is one of its own members. */
  lemma {:induction false} NoSelfMember(v: Value, k: string)
    requires v.Obj? && k in v.members
    ensures v.members[k] != v
    decreases v
  {
    if v.members[k] == v { NoSelfMember(v.members[k], k); }
  }
}
