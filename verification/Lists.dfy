/**
 Singly linked lists: chains of bios, and the vectors and bytes they stand for.
 */
module Lists {

  datatype Option<T> = None | Some(value: T)

  datatype List<T> = Nil | Cons(head: T, tail: List<T>)

  function Append<T>(a: List<T>, b: List<T>): List<T> {
    match a
    case Nil => b
    case Cons(x, r) => Cons(x, Append(r, b))
  }

  function Length<T>(a: List<T>): nat {
    match a
    case Nil => 0
    case Cons(_, r) => 1 + Length(r)
  }

  /** The list without its first n elements. */
  function Drop<T>(a: List<T>, n: nat): List<T> {
    if a.Nil? || n == 0 then a else Drop(a.tail, n - 1)
  }

  function Last<T>(a: List<T>): T
    requires a.Cons?
  {
    if a.tail.Nil? then a.head else Last(a.tail)
  }

  function SetLast<T>(a: List<T>, x: T): (r: List<T>)
    requires a.Cons?
    ensures r.Cons?
  {
    if a.tail.Nil? then Cons(x, Nil) else Cons(a.head, SetLast(a.tail, x))
  }

  lemma {:induction false} AppendAssoc<T>(a: List<T>, b: List<T>, c: List<T>)
    ensures Append(Append(a, b), c) == Append(a, Append(b, c))
  {
    if a.Cons? { AppendAssoc(a.tail, b, c); }
  }

  lemma {:induction false} AppendNil<T>(a: List<T>)
    ensures Append(a, Nil) == a
  {
    if a.Cons? { AppendNil(a.tail); }
  }

  lemma {:induction false} AppendLength<T>(a: List<T>, b: List<T>)
    ensures Length(Append(a, b)) == Length(a) + Length(b)
  {
    if a.Cons? { AppendLength(a.tail, b); }
  }

  lemma {:induction false} AppendLast<T>(a: List<T>, b: List<T>)
    requires b.Cons?
    ensures Append(a, b).Cons? && Last(Append(a, b)) == Last(b)
  {
    if a.Cons? { AppendLast(a.tail, b); }
  }

  lemma {:induction false} DropAppend<T>(a: List<T>, b: List<T>, n: nat)
    ensures n <= Length(a) ==> Drop(Append(a, b), n) == Append(Drop(a, n), b)
    ensures n >= Length(a) ==> Drop(Append(a, b), n) == Drop(b, n - Length(a))
  {
    if a.Cons? && n > 0 { DropAppend(a.tail, b, n - 1); }
  }

  lemma {:induction false} LastSet<T>(a: List<T>, x: T)
    requires a.Cons?
    ensures Last(SetLast(a, x)) == x
    ensures SetLast(a, x).head == if a.tail.Nil? then x else a.head
    ensures SetLast(a, Last(a)) == a
  {
    if a.tail.Cons? { LastSet(a.tail, x); }
  }

  function Remove<T(==)>(l: List<T>, x: T): List<T> {
    match l
    case Nil => Nil
    case Cons(y, r) => if y == x then r else Cons(y, Remove(r, x))
  }

  predicate Member<T(==)>(l: List<T>, x: T) {
    l.Cons? && (l.head == x || Member(l.tail, x))
  }

  predicate Distinct<T(==)>(l: List<T>) {
    l.Cons? ==> !Member(l.tail, l.head) && Distinct(l.tail)
  }

  lemma {:induction false} RemoveKeeps<T(!new)>(l: List<T>, x: T)
    requires Distinct(l)
    ensures forall y :: Member(Remove(l, x), y) <==> Member(l, y) && y != x
    ensures Distinct(Remove(l, x))
    ensures Length(Remove(l, x)) == Length(l) - if Member(l, x) then 1 else 0
  {
    if l.Cons? && l.head != x { RemoveKeeps(l.tail, x); }
    if l.Cons? && l.head == x { RemoveNone(l.tail, x); }
  }

  lemma {:induction false} RemoveNone<T(!new)>(l: List<T>, x: T)
    requires !Member(l, x)
    ensures Remove(l, x) == l && forall y :: Member(l, y) ==> y != x
  {
    if l.Cons? { RemoveNone(l.tail, x); }
  }

  lemma {:induction false} AppendKeeps<T(!new)>(l: List<T>, x: T)
    requires Distinct(l) && !Member(l, x)
    ensures var r := Append(l, Cons(x, Nil));
            && (forall y :: Member(r, y) <==> Member(l, y) || y == x)
            && Distinct(r) && Length(r) == Length(l) + 1
  {
    if l.Cons? { AppendKeeps(l.tail, x); }
  }

  /** x right behind y. */
  function InsertAfter<T(==)>(l: List<T>, y: T, x: T): List<T> {
    match l
    case Nil => Nil
    case Cons(z, r) => if z == y then Cons(z, Cons(x, r)) else Cons(z, InsertAfter(r, y, x))
  }

  lemma {:induction false} InsertKeeps<T(!new)>(l: List<T>, y: T, x: T)
    requires Distinct(l) && !Member(l, x) && Member(l, y)
    ensures var r := InsertAfter(l, y, x);
            && (forall z :: Member(r, z) <==> Member(l, z) || z == x)
            && Distinct(r) && Length(r) == Length(l) + 1
  {
    if l.head != y { InsertKeeps(l.tail, y, x); }
  }

  /** A set that is not empty has an element. */
  lemma {:induction false} Pick<T>(s: set<T>) returns (x: T)
    requires |s| > 0
    ensures x in s
  {
    x :| x in s;
  }
}
