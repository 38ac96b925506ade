/** Screen names and the order they are sorted in: strings compared character by character. */
module Names {

  type Name = string

  predicate Le(a: Name, b: Name) {
    a == "" || (b != "" && (a[0] < b[0] || (a[0] == b[0] && Le(a[1..], b[1..]))))
  }

  lemma {:induction false} LeTotal(a: Name, b: Name)
    ensures Le(a, b) || Le(b, a)
    ensures Le(a, b) && Le(b, a) ==> a == b
  {
    if a != "" && b != "" && a[0] == b[0] {
      LeTotal(a[1..], b[1..]);
      assert a == [a[0]] + a[1..] && b == [b[0]] + b[1..];
    }
  }

  lemma {:induction false} LeTransitive(a: Name, b: Name, c: Name)
    requires Le(a, b) && Le(b, c)
    ensures Le(a, c)
  {
    if a != "" && a[0] == b[0] == c[0] {
      LeTransitive(a[1..], b[1..], c[1..]);
    }
  }

  lemma {:induction false} LeastExists(s: set<Name>)
    requires s != {}
    ensures exists n :: n in s && forall m | m in s :: Le(n, m)
  {
    var x :| x in s;
    LeTotal(x, x);
    if s != {x} {
      LeastExists(s - {x});
      var y :| y in s - {x} && forall m | m in s - {x} :: Le(y, m);
      LeTotal(x, y);
      var n := if Le(x, y) then x else y;
      forall m | m in s
        ensures Le(n, m)
      {
        if m == x {
        } else if n == x {
          LeTransitive(x, y, m);
        }
      }
    }
  }

  function Least(s: set<Name>): (n: Name)
    requires s != {}
    ensures n in s && forall m | m in s :: Le(n, m)
  {
    LeastExists(s);
    LeastUnique(s);
    var n :| n in s && forall m | m in s :: Le(n, m);
    n
  }

  lemma LeastUnique(s: set<Name>)
    ensures forall a, b | a in s && b in s && (forall m | m in s :: Le(a, m)) && (forall m | m in s :: Le(b, m)) :: a == b
  {
    forall a, b | a in s && b in s && (forall m | m in s :: Le(a, m)) && (forall m | m in s :: Le(b, m))
      ensures a == b
    {
      LeTotal(a, b);
    }
  }

  /** The names of `s` in order, each once. */
  function Sorted(s: set<Name>): (names: seq<Name>)
    ensures forall n :: n in names <==> n in s
    ensures forall i, j :: 0 <= i < j < |names| ==> Le(names[i], names[j]) && names[i] != names[j]
    decreases |s|
  {
    if s == {} then []
    else
      var n := Least(s);
      var rest := Sorted(s - {n});
      assert forall m :: m in rest <==> m in s - {n};
      [n] + rest
  }

  lemma SortedOne(x: Name)
    ensures Sorted({x}) == [x]
  {
    assert Least({x}) == x && {x} - {x} == {};
  }
}
