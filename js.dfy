/** The small part of JavaScript's value semantics that the handler relies on:
    truthiness, the `||` operator, property access (which throws on null and
    undefined) and `String.prototype.includes`. */
module Js {

  datatype Option<T> = None | Some(value: T)

  /** A JavaScript value as the handler sees it. Numbers are integers here.
      An object carries only the three properties the handler ever reads
      (`id`, `code` and `консультация_время`); an absent property is Undefined.
      An array, or any other object, is an Obj whose three properties are
      Undefined. */
  datatype Value =
    | Undefined
    | Null
    | Bool(b: bool)
    | Num(n: int)
    | Str(s: string)
    | Obj(id: Value, code: Value, slotTime: Value)

  /** The property names the handler reads from a participant record;
      SlotTime is `консультация_время`. */
  datatype Field = Id | Code | SlotTime

  /** JavaScript truthiness: `!!v`. */
  predicate Truthy(v: Value) {
    match v
    case Undefined => false
    case Null => false
    case Bool(b) => b
    case Num(n) => n != 0
    case Str(s) => s != ""
    case Obj(_, _, _) => true
  }

  /** The two values whose property access raises a TypeError. */
  predicate Nullish(v: Value) {
    v.Undefined? || v.Null?
  }

  /** `a || b`: the first operand when it is truthy, otherwise the second. */
  function Or(a: Value, b: Value): (r: Value)
    ensures Truthy(r) <==> Truthy(a) || Truthy(b)
    ensures Truthy(a) ==> r == a
    ensures !Truthy(a) ==> r == b
  {
    if Truthy(a) then a else b
  }

  /** `v.f` on a value that is neither null nor undefined: a primitive
      (boolean, number, string) has none of the record's properties. */
  function Prop(v: Value, f: Field): (r: Value)
    requires !Nullish(v)
    ensures !v.Obj? ==> r == Undefined
    ensures v.Obj? && f == Id ==> r == v.id
    ensures v.Obj? && f == Code ==> r == v.code
    ensures v.Obj? && f == SlotTime ==> r == v.slotTime
  {
    match v
    case Obj(id, code, slotTime) =>
      (match f
       case Id => id
       case Code => code
       case SlotTime => slotTime)
    case _ => Undefined
  }

  /** `t` occurs in `s` starting at index `i`. */
  ghost predicate OccursAt(s: string, t: string, i: int) {
    0 <= i && i + |t| <= |s| && s[i..i + |t|] == t
  }

  /** `s.includes(t)`, scanning `s` from the left. */
  function Includes(s: string, t: string): bool
    decreases |s|
  {
    if |s| < |t| then false
    else if s[..|t|] == t then true
    else Includes(s[1..], t)
  }

  /** `Includes` holds exactly when `t` occurs somewhere in `s`; in
      particular every string includes the empty string. */
  lemma {:induction false} IncludesIff(s: string, t: string)
    ensures Includes(s, t) <==> exists i :: OccursAt(s, t, i)
    decreases |s|
  {
    if |s| < |t| {
      assert forall i :: !OccursAt(s, t, i);
    } else if s[..|t|] == t {
      assert OccursAt(s, t, 0);
    } else {
      IncludesIff(s[1..], t);
      if Includes(s[1..], t) {
        var j :| OccursAt(s[1..], t, j);
        assert s[1..][j..j + |t|] == s[j + 1..j + 1 + |t|];
        assert OccursAt(s, t, j + 1);
      } else {
        forall i | OccursAt(s, t, i) ensures false {
          assert i != 0;
          assert s[1..][i - 1..i - 1 + |t|] == s[i..i + |t|];
          assert OccursAt(s[1..], t, i - 1);
        }
      }
    }
  }

  /** A string built around `t` includes `t`, wherever it is placed. */
  lemma IncludesInfix(pre: string, t: string, post: string)
    ensures Includes(pre + t + post, t)
  {
    var s := pre + t + post;
    assert s[|pre|..|pre| + |t|] == t;
    assert OccursAt(s, t, |pre|);
    IncludesIff(s, t);
  }
}
