/** What the SQL engine does for the queries: filtering rows by a date range
    (`WHERE fecha >= ? AND fecha <= ?`) and ordering them (`ORDER BY`). */
module Tables {
  import opened Calendar

  datatype Option<T> = None | Some(value: T)

  /** An optional first and last calendar day; a missing bound does not
      restrict. */
  datatype Rango = Rango(inicio: Option<int>, fin: Option<int>)

  /** `inicio 00:00:00 <= t` if a start day is given, and `t <= fin
      23:59:59` if an end day is given. */
  predicate EnRango(t: int, r: Rango) {
    (r.inicio.None? || DayStart(r.inicio.value) <= t) &&
    (r.fin.None? || t <= DayEnd(r.fin.value))
  }

  /** The rows of `s` whose timestamp is in `r`, in table order. */
  function Ventana<T>(s: seq<T>, fecha: T -> int, r: Rango): (w: seq<T>)
    ensures |w| <= |s|
    ensures forall i :: 0 <= i < |w| ==> w[i] in s && EnRango(fecha(w[i]), r)
    ensures forall i :: 0 <= i < |s| && EnRango(fecha(s[i]), r) ==> s[i] in w
  {
    if s == [] then []
    else
      var w := Ventana(s[..|s| - 1], fecha, r);
      var x := s[|s| - 1];
      if EnRango(fecha(x), r) then w + [x] else w
  }

  lemma VentanaSnoc<T>(s: seq<T>, x: T, fecha: T -> int, r: Rango)
    ensures Ventana(s + [x], fecha, r) ==
            if EnRango(fecha(x), r) then Ventana(s, fecha, r) + [x] else Ventana(s, fecha, r)
  {
    assert (s + [x])[..|s|] == s;
  }

  /** `le` orders rows: any two are comparable and it is transitive. */
  ghost predicate TotalPreorder<T(!new)>(le: (T, T) -> bool) {
    (forall a, b :: le(a, b) || le(b, a)) &&
    (forall a, b, c :: le(a, b) && le(b, c) ==> le(a, c))
  }

  ghost predicate SortedBy<T>(s: seq<T>, le: (T, T) -> bool) {
    forall i, j :: 0 <= i < j < |s| ==> le(s[i], s[j])
  }

  /** Puts `x` into `r` after every row not strictly greater than it, so
      rows that compare equal keep the order they were inserted in. */
  function InsertBy<T>(r: seq<T>, x: T, le: (T, T) -> bool): seq<T> {
    if r == [] then [x]
    else if !le(r[0], x) then [x] + r
    else [r[0]] + InsertBy(r[1..], x, le)
  }

  /** Insertion sort. */
  function SortBy<T>(s: seq<T>, le: (T, T) -> bool): seq<T> {
    if s == [] then [] else InsertBy(SortBy(s[..|s| - 1], le), s[|s| - 1], le)
  }

  lemma SortBySnoc<T>(s: seq<T>, x: T, le: (T, T) -> bool)
    ensures SortBy(s + [x], le) == InsertBy(SortBy(s, le), x, le)
  {
    assert (s + [x])[..|s|] == s;
  }

  lemma {:induction false} InsertByPermutes<T>(r: seq<T>, x: T, le: (T, T) -> bool)
    ensures multiset(InsertBy(r, x, le)) == multiset(r) + multiset{x}
  {
    if r != [] && le(r[0], x) {
      InsertByPermutes(r[1..], x, le);
      assert r == [r[0]] + r[1..];
    }
  }

  lemma {:induction false} InsertBySorted<T(!new)>(r: seq<T>, x: T, le: (T, T) -> bool)
    requires TotalPreorder(le) && SortedBy(r, le)
    ensures SortedBy(InsertBy(r, x, le), le)
  {
    if r != [] && le(r[0], x) {
      InsertBySorted(r[1..], x, le);
      InsertByPermutes(r[1..], x, le);
      var t := InsertBy(r[1..], x, le);
      forall j | 0 <= j < |t| ensures le(r[0], t[j]) {
        assert t[j] in multiset(t);
        assert t[j] in r[1..] || t[j] == x;
      }
    }
  }

  /** Inserting adds exactly one row: `x`. */
  lemma InsertByMembers<T>(r: seq<T>, x: T, le: (T, T) -> bool)
    ensures |InsertBy(r, x, le)| == |r| + 1
    ensures forall y :: y in InsertBy(r, x, le) <==> y in r || y == x
  {
    InsertByPermutes(r, x, le);
    var t := InsertBy(r, x, le);
    assert |t| == |multiset(t)|;
    forall y ensures y in t <==> y in r || y == x {
      calc {
        y in t;
        y in multiset(t);
        y in multiset(r) + multiset{x};
        y in r || y == x;
      }
    }
  }

  /** Sorting orders the rows and keeps exactly the same rows. */
  lemma {:induction false} SortBySortsAndPermutes<T(!new)>(s: seq<T>, le: (T, T) -> bool)
    requires TotalPreorder(le)
    ensures SortedBy(SortBy(s, le), le)
    ensures multiset(SortBy(s, le)) == multiset(s)
  {
    if s != [] {
      var p := s[..|s| - 1];
      SortBySortsAndPermutes(p, le);
      InsertBySorted(SortBy(p, le), s[|s| - 1], le);
      InsertByPermutes(SortBy(p, le), s[|s| - 1], le);
      assert s == p + [s[|s| - 1]];
    }
  }

  /** `SELECT ... WHERE <fecha in r> ORDER BY <le>`: reads the table row by
      row and puts each row of the range in its place among those kept so far.
      The result is exactly the rows of the range, ordered. */
  method SelectOrderBy<T(!new)>(s: seq<T>, fecha: T -> int, le: (T, T) -> bool, r: Rango) returns (filas: seq<T>)
    requires TotalPreorder(le)
    ensures filas == SortBy(Ventana(s, fecha, r), le)
    ensures SortedBy(filas, le)
    ensures multiset(filas) == multiset(Ventana(s, fecha, r))
    ensures forall x :: x in filas <==> x in s && EnRango(fecha(x), r)
  {
    filas := [];
    var i := 0;
    while i < |s|
      invariant 0 <= i <= |s|
      invariant filas == SortBy(Ventana(s[..i], fecha, r), le)
    {
      assert s[..i + 1] == s[..i] + [s[i]];
      VentanaSnoc(s[..i], s[i], fecha, r);
      SortBySnoc(Ventana(s[..i], fecha, r), s[i], le);
      if EnRango(fecha(s[i]), r) {
        filas := InsertBy(filas, s[i], le);
      }
      i := i + 1;
    }
    assert s[..i] == s;
    var w := Ventana(s, fecha, r);
    SortBySortsAndPermutes(w, le);
    forall x ensures x in filas <==> x in s && EnRango(fecha(x), r) {
      calc {
        x in filas;
        x in multiset(filas);
        x in multiset(w);
        x in w;
      }
      if x in w {
        var i :| 0 <= i < |w| && w[i] == x;
      } else if x in s {
        var i :| 0 <= i < |s| && s[i] == x;
      }
    }
  }

  /** Lexicographic order on strings by character code. */
  predicate LexLe(a: string, b: string) {
    a == [] || (b != [] && (a[0] < b[0] || (a[0] == b[0] && LexLe(a[1..], b[1..]))))
  }

  lemma {:induction false} LexLeTotal(a: string, b: string)
    ensures LexLe(a, b) || LexLe(b, a)
  {
    if a != [] && b != [] && a[0] == b[0] {
      LexLeTotal(a[1..], b[1..]);
    }
  }

  lemma {:induction false} LexLeTransitive(a: string, b: string, c: string)
    requires LexLe(a, b) && LexLe(b, c)
    ensures LexLe(a, c)
  {
    if a != [] && b != [] && c != [] && a[0] == b[0] && b[0] == c[0] {
      LexLeTransitive(a[1..], b[1..], c[1..]);
    }
  }
}
