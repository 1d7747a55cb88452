/** Stable sorting by a name: what a stable sort is, and that nothing else is one. */
module StableSorting {

  ghost predicate TotalOrder(leq: (string, string) -> bool) {
    && (forall a :: leq(a, a))
    && (forall a, b :: leq(a, b) || leq(b, a))
    && (forall a, b :: leq(a, b) && leq(b, a) ==> a == b)
    && (forall a, b, c :: leq(a, b) && leq(b, c) ==> leq(a, c))
  }

  ghost predicate InOrder<T>(items: seq<T>, name: T -> string, leq: (string, string) -> bool) {
    forall i, j :: 0 <= i < j < |items| ==> leq(name(items[i]), name(items[j]))
  }

  /** The items of one name, in the order they stand. */
  function Only<T>(items: seq<T>, name: T -> string, n: string): seq<T> {
    if items == [] then []
    else (if name(items[0]) == n then [items[0]] else []) + Only(items[1..], name, n)
  }

  /** Sorted by name, and every name's items are the input's, in the input's order. */
  ghost predicate StablySorted<T>(items: seq<T>, sorted: seq<T>, name: T -> string, leq: (string, string) -> bool) {
    InOrder(sorted, name, leq) && forall n :: Only(sorted, name, n) == Only(items, name, n)
  }

  lemma {:induction false} OnlyContains<T>(items: seq<T>, name: T -> string, n: string)
    ensures Only(items, name, n) != [] <==> exists i :: 0 <= i < |items| && name(items[i]) == n
    ensures forall i :: 0 <= i < |Only(items, name, n)| ==> name(Only(items, name, n)[i]) == n
  {
    if items != [] {
      OnlyContains(items[1..], name, n);
      if Only(items[1..], name, n) != [] {
        var i :| 0 <= i < |items[1..]| && name(items[1..][i]) == n;
        assert name(items[i + 1]) == n;
      } else if i :| 0 <= i < |items| && name(items[i]) == n {
        if i > 0 {
          assert name(items[1..][i - 1]) == n;
        }
      }
    }
  }

  lemma OnlyTail<T>(s: seq<T>, t: seq<T>, name: T -> string, n: string)
    requires s != [] && t != [] && s[0] == t[0] && Only(s, name, n) == Only(t, name, n)
    ensures Only(s[1..], name, n) == Only(t[1..], name, n)
  {
    var head := if name(s[0]) == n then [s[0]] else [];
    assert Only(s[1..], name, n) == Only(s, name, n)[|head|..];
    assert Only(t[1..], name, n) == Only(t, name, n)[|head|..];
  }

  /** There is only one stable sort of a sequence. */
  lemma {:induction false} SortedUnique<T>(s: seq<T>, t: seq<T>, name: T -> string, leq: (string, string) -> bool)
    requires TotalOrder(leq) && InOrder(s, name, leq) && InOrder(t, name, leq)
    requires forall n :: Only(s, name, n) == Only(t, name, n)
    ensures s == t
  {
    if t != [] {
      HeadsAgree(t, s, name, leq);
    }
    if s != [] {
      HeadsAgree(s, t, name, leq);
      forall n
        ensures Only(s[1..], name, n) == Only(t[1..], name, n)
      {
        OnlyTail(s, t, name, n);
      }
      SortedUnique(s[1..], t[1..], name, leq);
      assert s == [s[0]] + s[1..] && t == [t[0]] + t[1..];
    }
  }

  lemma HeadsAgree<T>(s: seq<T>, t: seq<T>, name: T -> string, leq: (string, string) -> bool)
    requires TotalOrder(leq) && InOrder(s, name, leq) && InOrder(t, name, leq)
    requires forall n :: Only(s, name, n) == Only(t, name, n)
    requires s != []
    ensures t != [] && s[0] == t[0]
  {
    var a := name(s[0]);
    OnlyContains(s, name, a);
    OnlyContains(t, name, a);
    assert Only(t, name, a) == Only(s, name, a);
    var i :| 0 <= i < |t| && name(t[i]) == a;
    var b := name(t[0]);
    OnlyContains(t, name, b);
    OnlyContains(s, name, b);
    assert Only(s, name, b) == Only(t, name, b);
    var j :| 0 <= j < |s| && name(s[j]) == b;
    assert leq(b, a) && leq(a, b);
    assert Only(s, name, a)[0] == s[0] && Only(t, name, a)[0] == t[0];
  }

  // ---------------------------------------------------------------- a stable sort

  function Insert<T>(x: T, sorted: seq<T>, name: T -> string, leq: (string, string) -> bool): seq<T> {
    if sorted == [] || leq(name(x), name(sorted[0])) then [x] + sorted
    else [sorted[0]] + Insert(x, sorted[1..], name, leq)
  }

  function Sort<T>(items: seq<T>, name: T -> string, leq: (string, string) -> bool): seq<T> {
    if items == [] then [] else Insert(items[0], Sort(items[1..], name, leq), name, leq)
  }

  lemma {:induction false} InsertOnly<T>(x: T, sorted: seq<T>, name: T -> string,
    leq: (string, string) -> bool, n: string)
    requires forall a :: leq(a, a)
    ensures Only(Insert(x, sorted, name, leq), name, n) == Only([x] + sorted, name, n)
  {
    if !(sorted == [] || leq(name(x), name(sorted[0]))) {
      InsertOnly(x, sorted[1..], name, leq, n);
      assert leq(name(x), name(x));
      OnlyBehind(x, sorted[0], sorted[1..], Insert(x, sorted[1..], name, leq), name, n);
      assert sorted == [sorted[0]] + sorted[1..];
    }
  }

  lemma OnlyBehind<T>(x: T, y: T, rest: seq<T>, inserted: seq<T>, name: T -> string, n: string)
    requires name(x) != name(y) && Only(inserted, name, n) == Only([x] + rest, name, n)
    ensures Only([y] + inserted, name, n) == Only([x] + ([y] + rest), name, n)
  {
    OnlyCons(y, inserted, name, n);
    OnlyCons(y, [x] + rest, name, n);
    OnlySwap(x, y, rest, name, n);
  }

  lemma OnlySwap<T>(x: T, y: T, rest: seq<T>, name: T -> string, n: string)
    requires name(x) != name(y)
    ensures Only([y] + ([x] + rest), name, n) == Only([x] + ([y] + rest), name, n)
  {
    OnlyCons(y, [x] + rest, name, n);
    OnlyCons(x, rest, name, n);
    OnlyCons(x, [y] + rest, name, n);
    OnlyCons(y, rest, name, n);
  }

  lemma OnlyCons<T>(x: T, rest: seq<T>, name: T -> string, n: string)
    ensures Only([x] + rest, name, n) == if name(x) == n then [x] + Only(rest, name, n) else Only(rest, name, n)
  {
    assert ([x] + rest)[1..] == rest;
  }

  /** The first of the items with the least name. */
  ghost predicate Leads<T>(items: seq<T>, i: nat, name: T -> string, leq: (string, string) -> bool) {
    && i < |items|
    && (forall j :: 0 <= j < |items| ==> leq(name(items[i]), name(items[j])))
    && (forall j :: 0 <= j < i ==> name(items[j]) != name(items[i]))
  }

  lemma {:induction false} OnlyFirst<T>(items: seq<T>, i: nat, name: T -> string)
    requires i < |items| && forall j :: 0 <= j < i ==> name(items[j]) != name(items[i])
    ensures var n := name(items[i]); Only(items, name, n) != [] && Only(items, name, n)[0] == items[i]
  {
    if i > 0 {
      assert forall j :: 0 <= j < i - 1 ==> name(items[1..][j]) != name(items[i]);
      OnlyFirst(items[1..], i - 1, name);
    }
  }

  /** A stable sort starts with the item that leads. */
  lemma LeaderComesFirst<T>(items: seq<T>, sorted: seq<T>, i: nat, name: T -> string, leq: (string, string) -> bool)
    requires TotalOrder(leq) && StablySorted(items, sorted, name, leq) && Leads(items, i, name, leq)
    ensures sorted != [] && sorted[0] == items[i]
  {
    var n := name(items[i]);
    OnlyFirst(items, i, name);
    OnlyContains(sorted, name, n);
    assert Only(sorted, name, n) == Only(items, name, n);
    var k :| 0 <= k < |sorted| && name(sorted[k]) == n;
    var m := name(sorted[0]);
    OnlyContains(sorted, name, m);
    OnlyContains(items, name, m);
    assert Only(sorted, name, m) == Only(items, name, m);
    var j :| 0 <= j < |items| && name(items[j]) == m;
    assert leq(n, m) && leq(m, n);
    OnlyFirst(sorted, 0, name);
  }

  lemma {:induction false} SomeoneLeads<T>(items: seq<T>, name: T -> string, leq: (string, string) -> bool)
    returns (i: nat)
    requires TotalOrder(leq) && items != []
    ensures Leads(items, i, name, leq)
  {
    if |items| == 1 {
      i := 0;
    } else {
      var n := |items| - 1;
      i := SomeoneLeads(items[..n], name, leq);
      assert Leads(items[..n], i, name, leq);
      if !leq(name(items[i]), name(items[n])) {
        forall j | 0 <= j < n
          ensures leq(name(items[n]), name(items[j])) && name(items[j]) != name(items[n])
        {
          assert leq(name(items[..n][i]), name(items[..n][j]));
        }
        i := n;
      } else {
        assert forall j :: 0 <= j < n ==> items[..n][j] == items[j];
      }
    }
  }

  lemma {:induction false} InsertInOrder<T>(x: T, sorted: seq<T>, name: T -> string, leq: (string, string) -> bool)
    requires TotalOrder(leq) && InOrder(sorted, name, leq)
    ensures InOrder(Insert(x, sorted, name, leq), name, leq)
    ensures forall a :: leq(a, name(x)) && (forall i :: 0 <= i < |sorted| ==> leq(a, name(sorted[i]))) ==>
      forall i :: 0 <= i < |Insert(x, sorted, name, leq)| ==> leq(a, name(Insert(x, sorted, name, leq)[i]))
  {
    if sorted == [] || leq(name(x), name(sorted[0])) {
      forall i | 0 <= i < |sorted|
        ensures leq(name(x), name(sorted[i]))
      {
        assert i > 0 ==> leq(name(sorted[0]), name(sorted[i]));
      }
    } else {
      InsertInOrder(x, sorted[1..], name, leq);
      var inserted := Insert(x, sorted[1..], name, leq);
      var a := name(sorted[0]);
      assert leq(a, name(x));
      assert forall i :: 0 <= i < |sorted[1..]| ==> leq(a, name(sorted[1..][i]));
      assert forall i :: 0 <= i < |inserted| ==> leq(a, name(inserted[i]));
    }
  }

  /** Sort is a stable sort on every input. */
  lemma {:induction false} SortIsStable<T>(items: seq<T>, name: T -> string, leq: (string, string) -> bool)
    requires TotalOrder(leq)
    ensures StablySorted(items, Sort(items, name, leq), name, leq)
  {
    if items != [] {
      var rest := Sort(items[1..], name, leq);
      SortIsStable(items[1..], name, leq);
      InsertInOrder(items[0], rest, name, leq);
      forall n
        ensures Only(Sort(items, name, leq), name, n) == Only(items, name, n)
      {
        InsertOnly(items[0], rest, name, leq, n);
        OnlyCons(items[0], rest, name, n);
      }
    }
  }

  lemma SortedStays<T>(items: seq<T>, name: T -> string, leq: (string, string) -> bool)
    requires TotalOrder(leq) && InOrder(items, name, leq)
    ensures Sort(items, name, leq) == items
  {
    SortIsStable(items, name, leq);
    SortedUnique(Sort(items, name, leq), items, name, leq);
  }

  lemma {:induction false} InsertMultiset<T>(x: T, sorted: seq<T>, name: T -> string, leq: (string, string) -> bool)
    ensures multiset(Insert(x, sorted, name, leq)) == multiset([x] + sorted)
  {
    if !(sorted == [] || leq(name(x), name(sorted[0]))) {
      InsertMultiset(x, sorted[1..], name, leq);
      assert sorted == [sorted[0]] + sorted[1..];
    }
  }

  lemma {:induction false} SortPermutes<T>(items: seq<T>, name: T -> string, leq: (string, string) -> bool)
    ensures multiset(Sort(items, name, leq)) == multiset(items)
  {
    if items != [] {
      SortPermutes(items[1..], name, leq);
      InsertMultiset(items[0], Sort(items[1..], name, leq), name, leq);
      assert items == [items[0]] + items[1..];
    }
  }

  // ---------------------------------------------------------------- heads and images

  /** Replacing a common first item by the same prefix keeps the agreement name by name. */
  lemma OnlySameHead<T>(before: seq<T>, after: seq<T>, front: seq<T>, name: T -> string, n: string)
    requires before != [] && after != [] && before[0] == after[0] && |front| <= 1
    requires Only(before, name, n) == Only(after, name, n)
    ensures Only(front + before[1..], name, n) == Only(front + after[1..], name, n)
  {
    OnlyTail(before, after, name, n);
    if front == [] {
      assert front + before[1..] == before[1..] && front + after[1..] == after[1..];
    } else {
      assert front == [front[0]];
      OnlyCons(front[0], before[1..], name, n);
      OnlyCons(front[0], after[1..], name, n);
    }
  }

  function Image<T, U>(items: seq<T>, f: T -> U): seq<U> {
    seq(|items|, i requires 0 <= i < |items| => f(items[i]))
  }

  lemma ImageConcat<T, U>(x: seq<T>, y: seq<T>, f: T -> U)
    ensures Image(x + y, f) == Image(x, f) + Image(y, f)
  {
  }

  lemma {:induction false} InsertImage<T, U>(x: T, sorted: seq<T>, name: T -> string,
    leq: (string, string) -> bool, f: T -> U)
    ensures multiset(Image(Insert(x, sorted, name, leq), f)) == multiset{f(x)} + multiset(Image(sorted, f))
  {
    if sorted == [] || leq(name(x), name(sorted[0])) {
      ImageConcat([x], sorted, f);
    } else {
      var y, rest := sorted[0], sorted[1..];
      InsertImage(x, rest, name, leq, f);
      ImageConcat([y], Insert(x, rest, name, leq), f);
      ImageConcat([y], rest, f);
      assert sorted == [y] + rest;
    }
  }

  lemma {:induction false} SortImage<T, U>(items: seq<T>, name: T -> string, leq: (string, string) -> bool, f: T -> U)
    ensures multiset(Image(Sort(items, name, leq), f)) == multiset(Image(items, f))
  {
    if items != [] {
      SortImage(items[1..], name, leq, f);
      InsertImage(items[0], Sort(items[1..], name, leq), name, leq, f);
      ImageHead(items, f);
    }
  }

  lemma ImageHead<T, U>(items: seq<T>, f: T -> U)
    requires items != []
    ensures multiset(Image(items, f)) == multiset{f(items[0])} + multiset(Image(items[1..], f))
  {
    assert Image(items, f) == [f(items[0])] + Image(items[1..], f);
  }

  /** Sorting records by a stored name and projecting is sorting the projections. */
  lemma {:induction false} InsertProject<S, T>(x: S, sorted: seq<S>, key: S -> string, f: S -> T, name: T -> string,
    leq: (string, string) -> bool)
    requires key(x) == name(f(x)) && forall i :: 0 <= i < |sorted| ==> key(sorted[i]) == name(f(sorted[i]))
    ensures Image(Insert(x, sorted, key, leq), f) == Insert(f(x), Image(sorted, f), name, leq)
    ensures forall i :: 0 <= i < |Insert(x, sorted, key, leq)| ==>
      key(Insert(x, sorted, key, leq)[i]) == name(f(Insert(x, sorted, key, leq)[i]))
  {
    if sorted == [] || leq(key(x), key(sorted[0])) {
      ImageConcat([x], sorted, f);
    } else {
      var rest := sorted[1..];
      InsertProject(x, rest, key, f, name, leq);
      assert Image(sorted, f)[1..] == Image(rest, f);
      ImageConcat([sorted[0]], Insert(x, rest, key, leq), f);
    }
  }

  lemma {:induction false} SortProject<S, T>(items: seq<S>, key: S -> string, f: S -> T, name: T -> string,
    leq: (string, string) -> bool)
    requires forall i :: 0 <= i < |items| ==> key(items[i]) == name(f(items[i]))
    ensures Image(Sort(items, key, leq), f) == Sort(Image(items, f), name, leq)
    ensures forall i :: 0 <= i < |Sort(items, key, leq)| ==>
      key(Sort(items, key, leq)[i]) == name(f(Sort(items, key, leq)[i]))
  {
    if items != [] {
      SortProject(items[1..], key, f, name, leq);
      InsertProject(items[0], Sort(items[1..], key, leq), key, f, name, leq);
      assert Image(items, f)[1..] == Image(items[1..], f);
    }
  }
}

/** Sorting a URL's query parameters for storage, and the key URLs are compared by. The
    percent-decoding and the serialisation of the URL library are arbitrary functions. */
module UrlQuery {
  import opened StableSorting

  // ---------------------------------------------------------------- text

  ghost predicate FirstAt(s: string, c: char, i: nat) {
    i <= |s| && (i < |s| ==> s[i] == c) && forall k :: 0 <= k < i ==> s[k] != c
  }

  lemma {:induction false} FirstExists(s: string, c: char)
    ensures exists i: nat :: FirstAt(s, c, i)
  {
    if s == [] || s[0] == c {
      assert FirstAt(s, c, 0);
    } else {
      FirstExists(s[1..], c);
      var i: nat :| FirstAt(s[1..], c, i);
      assert forall k :: 0 < k < |s| ==> s[k] == s[1..][k - 1];
      assert FirstAt(s, c, i + 1);
    }
  }

  /** The first position of c in s, or the length when it does not occur. */
  ghost function Find(s: string, c: char): (i: nat)
    ensures FirstAt(s, c, i)
  {
    FirstExists(s, c);
    var i: nat :| FirstAt(s, c, i);
    i
  }

  lemma FindIs(s: string, c: char, i: nat)
    requires i <= |s| && (i < |s| ==> s[i] == c)
    requires forall k :: 0 <= k < i ==> s[k] != c
    ensures Find(s, c) == i
  {
  }

  /** std::string order. */
  predicate TextLeq(a: string, b: string) {
    if a == [] then true
    else if b == [] then false
    else if a[0] == b[0] then TextLeq(a[1..], b[1..])
    else a[0] < b[0]
  }

  lemma {:induction false} TextTotal(a: string, b: string)
    ensures TextLeq(a, a) && (TextLeq(a, b) || TextLeq(b, a))
    ensures TextLeq(a, b) && TextLeq(b, a) ==> a == b
  {
    if a != [] {
      TextTotal(a[1..], if b == [] then [] else b[1..]);
      assert a == [a[0]] + a[1..] && (b != [] ==> b == [b[0]] + b[1..]);
    }
  }

  lemma {:induction false} TextTransitive(a: string, b: string, c: string)
    requires TextLeq(a, b) && TextLeq(b, c)
    ensures TextLeq(a, c)
  {
    if a != [] && a[0] == b[0] == c[0] {
      TextTransitive(a[1..], b[1..], c[1..]);
    }
  }

  lemma TextOrder()
    ensures TotalOrder(TextLeq)
  {
    forall a, b
      ensures TextLeq(a, a) && (TextLeq(a, b) || TextLeq(b, a)) && (TextLeq(a, b) && TextLeq(b, a) ==> a == b)
    {
      TextTotal(a, b);
    }
    forall a, b, c | TextLeq(a, b) && TextLeq(b, c)
      ensures TextLeq(a, c)
    {
      TextTransitive(a, b, c);
    }
  }

  // ---------------------------------------------------------------- fields

  /** The non-empty pieces between ampersands. */
  ghost function Fields(text: string): seq<string>
    decreases |text|
  {
    if text == [] then []
    else
      var n := Find(text, '&');
      (if n == 0 then [] else [text[..n]]) + (if n == |text| then [] else Fields(text[n + 1..]))
  }

  predicate IsField(f: string) {
    f != [] && '&' !in f
  }

  function Join(fields: seq<string>): string {
    if fields == [] then ""
    else if |fields| == 1 then fields[0]
    else Join(fields[..|fields| - 1]) + "&" + fields[|fields| - 1]
  }

  lemma FieldsCut(a: string, rest: string)
    requires '&' !in a
    ensures Fields(a + "&" + rest) == (if a == [] then [] else [a]) + Fields(rest)
    ensures Fields(a) == if a == [] then [] else [a]
  {
    var text := a + "&" + rest;
    assert forall k :: 0 <= k < |a| ==> text[k] == a[k];
    FindIs(text, '&', |a|);
    FindIs(a, '&', |a|);
    assert text[..|a|] == a && text[|a| + 1..] == rest && a[..|a|] == a;
  }

  lemma CutAt(text: string) returns (head: string, tail: string)
    requires '&' in text
    ensures '&' !in head && text == head + "&" + tail
  {
    var n := Find(text, '&');
    head, tail := text[..n], text[n + 1..];
  }

  lemma {:induction false} FieldsAreFields(text: string)
    ensures forall i :: 0 <= i < |Fields(text)| ==> IsField(Fields(text)[i])
    decreases |text|
  {
    if '&' in text {
      var head, tail := CutAt(text);
      FieldsCut(head, tail);
      FieldsAreFields(tail);
    } else {
      FieldsCut(text, "");
    }
  }

  lemma {:induction false} FieldsAvoid(text: string, c: char)
    requires c !in text
    ensures forall i :: 0 <= i < |Fields(text)| ==> c !in Fields(text)[i]
    decreases |text|
  {
    if '&' in text {
      var head, tail := CutAt(text);
      FieldsCut(head, tail);
      FieldsAvoid(tail, c);
    } else {
      FieldsCut(text, "");
    }
  }

  lemma FieldsOfTwoStep(head: string, tail: string, b: string, rest: string)
    requires '&' !in head && Fields(rest) == Fields(tail) + Fields(b)
    ensures Fields(head + "&" + rest) == Fields(head + "&" + tail) + Fields(b)
  {
    FieldsCut(head, tail);
    FieldsCut(head, rest);
    Associate(if head == [] then [] else [head], Fields(tail), Fields(b));
  }

  lemma Associate<T>(x: seq<T>, y: seq<T>, z: seq<T>)
    ensures x + (y + z) == (x + y) + z
  {
  }

  lemma Regroup(head: string, tail: string, b: string)
    ensures (head + "&" + tail) + "&" + b == head + "&" + (tail + "&" + b)
  {
  }

  lemma {:induction false} FieldsOfTwo(a: string, b: string)
    ensures Fields(a + "&" + b) == Fields(a) + Fields(b)
    decreases |a|
  {
    if '&' in a {
      var head, tail := CutAt(a);
      FieldsOfTwo(tail, b);
      FieldsOfTwoStep(head, tail, b, tail + "&" + b);
      Regroup(head, tail, b);
    } else {
      FieldsCut(a, b);
    }
  }

  lemma SplitLast<T>(x: seq<T>)
    requires x != []
    ensures x == x[..|x| - 1] + [x[|x| - 1]]
  {
  }

  /** Joining fields and splitting them again gives the same fields. */
  lemma {:induction false} FieldsOfJoin(fields: seq<string>)
    requires forall i :: 0 <= i < |fields| ==> IsField(fields[i])
    ensures Fields(Join(fields)) == fields
  {
    if fields != [] {
      var n := |fields| - 1;
      var rest, last := fields[..n], fields[n];
      FieldsCut(last, "");
      SplitLast(fields);
      if n > 0 {
        FieldsOfJoin(rest);
        FieldsOfTwo(Join(rest), last);
      }
    }
  }

  lemma {:induction false} JoinAvoids(fields: seq<string>, c: char)
    requires c != '&' && forall i :: 0 <= i < |fields| ==> c !in fields[i]
    ensures c !in Join(fields)
  {
    if |fields| > 1 {
      JoinAvoids(fields[..|fields| - 1], c);
    }
  }

  // ---------------------------------------------------------------- sorting a URL

  type Decoder = string -> string

  ghost function RawName(field: string): string {
    field[..Find(field, '=')]
  }

  ghost function Name(decode: Decoder): string -> string {
    (field: string) => decode(RawName(field))
  }

  /** Where the fragment starts, and where the query mark is. */
  ghost function FragmentAt(url: string): nat {
    Find(url, '#')
  }

  ghost predicate HasQuery(url: string) {
    Find(url, '?') < FragmentAt(url)
  }

  ghost function QueryText(url: string): string
    requires HasQuery(url)
  {
    url[Find(url, '?') + 1..FragmentAt(url)]
  }

  ghost function SortQuery(url: string, decode: Decoder): string {
    if !HasQuery(url) then url
    else
      url[..Find(url, '?') + 1] +
      Join(Sort(Fields(QueryText(url)), Name(decode), TextLeq)) +
      url[FragmentAt(url)..]
  }

  lemma SortedFields(text: string, decode: Decoder)
    ensures var fields := Sort(Fields(text), Name(decode), TextLeq);
      && Fields(Join(fields)) == fields
      && (forall c :: c != '&' && c !in text ==> c !in Join(fields))
  {
    var fields := Sort(Fields(text), Name(decode), TextLeq);
    SortPermutes(Fields(text), Name(decode), TextLeq);
    FieldsAreFields(text);
    forall i | 0 <= i < |fields|
      ensures fields[i] in Fields(text)
    {
      assert fields[i] in multiset(fields);
    }
    FieldsOfJoin(fields);
    forall c | c != '&' && c !in text
      ensures c !in Join(fields)
    {
      FieldsAvoid(text, c);
      JoinAvoids(fields, c);
    }
  }

  /** A URL put together from a base, a query and a fragment reads as those parts. */
  lemma Reads(base: string, query: string, fragment: string)
    requires '?' !in base && '#' !in base && '#' !in query
    requires fragment == [] || fragment[0] == '#'
    ensures var url := base + "?" + query + fragment;
      && HasQuery(url)
      && url[..Find(url, '?')] == base && QueryText(url) == query && url[FragmentAt(url)..] == fragment
  {
    var url, q, h := base + "?" + query + fragment, |base|, |base| + 1 + |query|;
    assert forall k :: 0 <= k < q ==> url[k] == base[k];
    FindIs(url, '?', q);
    assert forall k :: q < k < h ==> url[k] == query[k - q - 1];
    FindIs(url, '#', h);
    assert url[..q] == base && url[q + 1..h] == query && url[h..] == fragment;
  }

  /** The text before the query and the fragment stay; the query's fields are rearranged. */
  lemma SortKeepsFrame(url: string, decode: Decoder)
    requires HasQuery(url)
    ensures var sorted := SortQuery(url, decode);
      && HasQuery(sorted)
      && sorted[..Find(sorted, '?')] == url[..Find(url, '?')]
      && sorted[FragmentAt(sorted)..] == url[FragmentAt(url)..]
      && QueryText(sorted) == Join(Sort(Fields(QueryText(url)), Name(decode), TextLeq))
  {
    SortedFields(QueryText(url), decode);
    Parts(url);
    Reads(url[..Find(url, '?')], Join(Sort(Fields(QueryText(url)), Name(decode), TextLeq)), url[FragmentAt(url)..]);
  }

  lemma Parts(url: string)
    requires HasQuery(url)
    ensures var q, h := Find(url, '?'), FragmentAt(url);
      && '?' !in url[..q] && '#' !in url[..q] && '#' !in QueryText(url)
      && (url[h..] == [] || url[h..][0] == '#') && url[..q + 1] == url[..q] + "?"
  {
    var q, text := Find(url, '?'), QueryText(url);
    assert forall k :: 0 <= k < |text| ==> text[k] == url[q + 1 + k];
  }

  /** The stored query holds the same fields, sorted by decoded name, repeated names in
      their original order. */
  lemma SortIsStableByName(url: string, decode: Decoder)
    requires HasQuery(url)
    ensures HasQuery(SortQuery(url, decode))
    ensures var before, after := Fields(QueryText(url)), Fields(QueryText(SortQuery(url, decode)));
      StablySorted(before, after, Name(decode), TextLeq) && multiset(after) == multiset(before)
  {
    TextOrder();
    SortKeepsFrame(url, decode);
    SortedFields(QueryText(url), decode);
    SortIsStable(Fields(QueryText(url)), Name(decode), TextLeq);
    SortPermutes(Fields(QueryText(url)), Name(decode), TextLeq);
  }

  lemma Reassembles(url: string)
    requires HasQuery(url)
    ensures url == url[..Find(url, '?') + 1] + QueryText(url) + url[FragmentAt(url)..]
  {
  }

  lemma SortIdempotent(url: string, decode: Decoder)
    ensures SortQuery(SortQuery(url, decode), decode) == SortQuery(url, decode)
  {
    if HasQuery(url) {
      var sorted := SortQuery(url, decode);
      SortKeepsFrame(url, decode);
      SortIsStableByName(url, decode);
      TextOrder();
      SortedStays(Fields(QueryText(sorted)), Name(decode), TextLeq);
      SortedFields(QueryText(url), decode);
      Reassembles(sorted);
    }
  }

  // ---------------------------------------------------------------- the comparison key

  datatype Pair = Pair(name: string, value: string)

  function PairName(): Pair -> string {
    (p: Pair) => p.name
  }

  ghost function PairOf(field: string, decode: Decoder): Pair {
    var n := Find(field, '=');
    Pair(decode(field[..n]), decode(if n == |field| then "" else field[n + 1..]))
  }

  ghost function Pairs(fields: seq<string>, decode: Decoder): seq<Pair> {
    Image(fields, (f: string) => PairOf(f, decode))
  }

  /** The URL library takes one question mark off the front of what it parses. */
  predicate Marked(text: string) {
    text != [] && text[0] == '?'
  }

  ghost function Parse(text: string, decode: Decoder): seq<Pair> {
    Pairs(Fields(if Marked(text) then text[1..] else text), decode)
  }

  function Remove(pairs: seq<Pair>, names: seq<string>): seq<Pair> {
    if pairs == [] then []
    else (if pairs[0].name in names then [] else [pairs[0]]) + Remove(pairs[1..], names)
  }

  /** leq: the order in which the URL library sorts names; show: how it writes pairs. */
  ghost function ComparisonKey(url: string, ephemeral: seq<string>, decode: Decoder,
    leq: (string, string) -> bool, show: seq<Pair> -> string): string
  {
    if !HasQuery(url) then url[..FragmentAt(url)]
    else
      var shown := show(Sort(Remove(Parse(QueryText(url), decode), ephemeral), PairName(), leq));
      url[..Find(url, '?')] + (if shown == "" then "" else "?" + shown)
  }

  lemma PairsCons(f: string, rest: seq<string>, decode: Decoder)
    ensures Pairs([f] + rest, decode) == [PairOf(f, decode)] + Pairs(rest, decode)
  {
  }

  lemma {:induction false} OnlyPairs(fields: seq<string>, decode: Decoder, n: string)
    ensures Only(Pairs(fields, decode), PairName(), n) == Pairs(Only(fields, Name(decode), n), decode)
  {
    if fields != [] {
      var f, rest := fields[0], fields[1..];
      OnlyPairs(rest, decode, n);
      assert fields == [f] + rest;
      assert PairName()(PairOf(f, decode)) == decode(RawName(f)) == Name(decode)(f);
      PairsCons(f, rest, decode);
      PairsCons(f, Only(rest, Name(decode), n), decode);
      OnlyCons(PairOf(f, decode), Pairs(rest, decode), PairName(), n);
      OnlyCons(f, rest, Name(decode), n);
    }
  }

  lemma {:induction false} OnlyRemoved(pairs: seq<Pair>, names: seq<string>, n: string)
    ensures Only(Remove(pairs, names), PairName(), n) == if n in names then [] else Only(pairs, PairName(), n)
  {
    if pairs != [] {
      var p, rest := pairs[0], pairs[1..];
      OnlyRemoved(rest, names, n);
      OnlyCons(p, rest, PairName(), n);
      OnlyCons(p, Remove(rest, names), PairName(), n);
      assert pairs == [p] + rest;
      assert Remove(pairs, names) == if p.name in names then Remove(rest, names) else [p] + Remove(rest, names);
    }
  }

  /** Fields that agree name by name make the same sorted parameters. */
  lemma SameParameters(before: seq<string>, after: seq<string>, ephemeral: seq<string>, decode: Decoder,
    leq: (string, string) -> bool)
    requires TotalOrder(leq)
    requires forall n :: Only(before, Name(decode), n) == Only(after, Name(decode), n)
    ensures Sort(Remove(Pairs(before, decode), ephemeral), PairName(), leq)
         == Sort(Remove(Pairs(after, decode), ephemeral), PairName(), leq)
  {
    var p, p' := Remove(Pairs(before, decode), ephemeral), Remove(Pairs(after, decode), ephemeral);
    SortIsStable(p, PairName(), leq);
    SortIsStable(p', PairName(), leq);
    forall n
      ensures Only(p, PairName(), n) == Only(p', PairName(), n)
    {
      assert Only(after, Name(decode), n) == Only(before, Name(decode), n);
      OnlyPairs(before, decode, n);
      OnlyPairs(after, decode, n);
      OnlyRemoved(Pairs(before, decode), ephemeral, n);
      OnlyRemoved(Pairs(after, decode), ephemeral, n);
    }
    SortedUnique(Sort(p, PairName(), leq), Sort(p', PairName(), leq), PairName(), leq);
  }

  function Unmark(field: string): seq<string>
    requires field != []
  {
    if field[1..] == [] then [] else [field[1..]]
  }

  /** Taking the mark off the text takes it off the first field. */
  lemma UnmarkFirst(text: string)
    requires Marked(text)
    ensures Fields(text) != [] && Fields(text)[0] != [] && Fields(text)[0][0] == '?'
    ensures Fields(text[1..]) == Unmark(Fields(text)[0]) + Fields(text)[1..]
  {
    if '&' in text {
      var head, tail := CutAt(text);
      assert head != [] && head[0] == text[0];
      assert text[1..] == head[1..] + "&" + tail;
      FieldsCut(head, tail);
      FieldsCut(head[1..], tail);
    } else {
      FieldsCut(text, "");
      FieldsCut(text[1..], "");
    }
  }

  /** The library takes the same mark off both texts, or none off either. */
  ghost predicate SameMark(text: string, text': string) {
    Marked(text) == Marked(text') && (Marked(text) ==> Fields(text)[..1] == Fields(text')[..1])
  }

  /** It does so before and after sorting. */
  ghost predicate MarkStays(url: string, decode: Decoder)
    requires HasQuery(url) && HasQuery(SortQuery(url, decode))
  {
    SameMark(QueryText(url), QueryText(SortQuery(url, decode)))
  }

  /** What a caller can tell from the query alone: the field that sorting puts first is textually
      the one the mark is taken off, or, where no mark is taken off, does not start with one. */
  ghost predicate SafeQuery(text: string, decode: Decoder) {
    var fields := Fields(text);
    forall i: nat | Leads(fields, i, Name(decode), TextLeq) ::
      if Marked(text) then fields[i] == fields[0] else !Marked(fields[i])
  }

  ghost predicate MarkSafe(url: string, decode: Decoder)
    requires HasQuery(url)
  {
    SafeQuery(QueryText(url), decode)
  }

  lemma {:induction false} JoinHead(fields: seq<string>)
    requires fields != [] && fields[0] != []
    ensures Join(fields) != [] && Join(fields)[0] == fields[0][0]
  {
    if |fields| > 1 {
      JoinHead(fields[..|fields| - 1]);
    }
  }

  /** The condition on the URL is the condition on what sorting makes of it. */
  lemma MarkSafeExactly(url: string, decode: Decoder)
    requires HasQuery(url)
    ensures HasQuery(SortQuery(url, decode)) && (MarkSafe(url, decode) <==> MarkStays(url, decode))
  {
    SortKeepsFrame(url, decode);
    SortIsStableByName(url, decode);
    SortedFields(QueryText(url), decode);
    SafeQueryExactly(QueryText(url), QueryText(SortQuery(url, decode)), decode);
  }

  lemma SafeQueryExactly(text: string, text': string, decode: Decoder)
    requires StablySorted(Fields(text), Fields(text'), Name(decode), TextLeq) && text' == Join(Fields(text'))
    ensures SafeQuery(text, decode) <==> SameMark(text, text')
  {
    FieldsAreFields(text);
    if Fields(text) == [] {
      NoFieldsNoMark(text);
      assert Fields(text') == [] by {
        NothingToSort(Fields(text), Fields(text'), Name(decode));
      }
    } else {
      TextOrder();
      var i := SomeoneLeads(Fields(text), Name(decode), TextLeq);
      MarkByLeader(text, text', decode, i);
      forall k: nat | Leads(Fields(text), k, Name(decode), TextLeq)
        ensures Fields(text)[k] == Fields(text)[i]
      {
        MarkByLeader(text, text', decode, k);
      }
    }
  }

  lemma NothingToSort(fields: seq<string>, sorted: seq<string>, name: string -> string)
    requires StablySorted(fields, sorted, name, TextLeq) && fields == []
    ensures sorted == []
  {
    if sorted != [] {
      OnlyFirst(sorted, 0, name);
    }
  }

  lemma NoFieldsNoMark(text: string)
    requires Fields(text) == []
    ensures !Marked(text)
  {
    if Marked(text) {
      UnmarkFirst(text);
    }
  }

  lemma MarkByLeader(text: string, text': string, decode: Decoder, i: nat)
    requires var fields, sorted := Fields(text), Fields(text');
      && StablySorted(fields, sorted, Name(decode), TextLeq) && text' == Join(sorted)
      && Leads(fields, i, Name(decode), TextLeq) && fields[i] != []
    ensures Marked(text') == Marked(Fields(text)[i])
    ensures Fields(text') != [] && Fields(text')[0] == Fields(text)[i]
  {
    TextOrder();
    LeaderComesFirst(Fields(text), Fields(text'), i, Name(decode), TextLeq);
    JoinHead(Fields(text'));
  }

  lemma UnmarkedAgree(before: seq<string>, after: seq<string>, decode: Decoder)
    requires before != [] && after != [] && before[0] == after[0] && before[0] != []
    requires forall n :: Only(after, Name(decode), n) == Only(before, Name(decode), n)
    ensures forall n :: Only(Unmark(before[0]) + before[1..], Name(decode), n)
                     == Only(Unmark(after[0]) + after[1..], Name(decode), n)
  {
    forall n
      ensures Only(Unmark(before[0]) + before[1..], Name(decode), n)
           == Only(Unmark(after[0]) + after[1..], Name(decode), n)
    {
      OnlySameHead(before, after, Unmark(before[0]), Name(decode), n);
    }
  }

  /** Sorting for storage does not change which URLs compare equal, whatever the library's
      decoding, name order and serialisation, for every URL without a query and for every one
      whose query is mark-safe. */
  lemma SortKeepsKey(url: string, ephemeral: seq<string>, decode: Decoder,
    leq: (string, string) -> bool, show: seq<Pair> -> string)
    requires TotalOrder(leq)
    requires HasQuery(url) ==> MarkSafe(url, decode)
    ensures ComparisonKey(SortQuery(url, decode), ephemeral, decode, leq, show)
         == ComparisonKey(url, ephemeral, decode, leq, show)
  {
    if HasQuery(url) {
      MarkSafeExactly(url, decode);
      SortKeepsFrame(url, decode);
      SortIsStableByName(url, decode);
      SameParsed(QueryText(url), QueryText(SortQuery(url, decode)), ephemeral, decode, leq);
    }
  }

  /** Two texts with the same fields up to a stable sort, of which the same leading mark is taken off,
      give the same sorted parameters. */
  lemma SameParsed(text: string, text': string, ephemeral: seq<string>, decode: Decoder,
    leq: (string, string) -> bool)
    requires TotalOrder(leq) && StablySorted(Fields(text), Fields(text'), Name(decode), TextLeq)
    requires SameMark(text, text')
    ensures Sort(Remove(Parse(text, decode), ephemeral), PairName(), leq)
         == Sort(Remove(Parse(text', decode), ephemeral), PairName(), leq)
  {
    var before, after := Fields(text), Fields(text');
    if Marked(text) {
      UnmarkFirst(text);
      UnmarkFirst(text');
      assert before[0] == before[..1][0] == after[..1][0] == after[0];
      UnmarkedAgree(before, after, decode);
      SameParameters(Fields(text[1..]), Fields(text'[1..]), ephemeral, decode, leq);
    } else {
      SameParameters(before, after, ephemeral, decode, leq);
    }
  }

  // ---------------------------------------------------------------- what the key means

  /** The URL up to its query or fragment, and the parameters the library reads in its query. */
  ghost function BaseOf(url: string): string {
    url[..if HasQuery(url) then Find(url, '?') else FragmentAt(url)]
  }

  ghost function ParametersOf(url: string, decode: Decoder): seq<Pair> {
    if HasQuery(url) then Parse(QueryText(url), decode) else []
  }

  /** Every parameter name that is not ephemeral has the same values in the same order. */
  ghost predicate SameValues(x: seq<Pair>, y: seq<Pair>, ephemeral: seq<string>) {
    forall n :: n !in ephemeral ==> Only(x, PairName(), n) == Only(y, PairName(), n)
  }

  ghost function Tail(x: seq<Pair>, ephemeral: seq<string>, leq: (string, string) -> bool,
    show: seq<Pair> -> string): string
  {
    var shown := show(Sort(Remove(x, ephemeral), PairName(), leq));
    if shown == "" then "" else "?" + shown
  }

  lemma KeyIsBaseAndTail(url: string, ephemeral: seq<string>, decode: Decoder, leq: (string, string) -> bool,
    show: seq<Pair> -> string)
    requires show([]) == ""
    ensures ComparisonKey(url, ephemeral, decode, leq, show)
         == BaseOf(url) + Tail(ParametersOf(url, decode), ephemeral, leq, show)
    ensures '?' !in BaseOf(url)
  {
    assert Remove([], ephemeral) == [] && Sort<Pair>([], PairName(), leq) == [];
  }

  lemma CutAtMark(a: string, b: string, x: string, y: string)
    requires '?' !in a && '?' !in b && (x == "" || x[0] == '?') && (y == "" || y[0] == '?')
    requires a + x == b + y
    ensures a == b && x == y
  {
    MarkAt(a, x);
    MarkAt(b, y);
    assert a == (a + x)[..|a|] == b;
    assert x == (a + x)[|a|..] == y;
  }

  lemma MarkAt(a: string, x: string)
    requires '?' !in a && (x == "" || x[0] == '?')
    ensures Find(a + x, '?') == |a|
  {
    assert forall k :: 0 <= k < |a| ==> (a + x)[k] == a[k];
    FindIs(a + x, '?', |a|);
  }

  lemma SameSortedExactly(x: seq<Pair>, y: seq<Pair>, ephemeral: seq<string>, leq: (string, string) -> bool)
    requires TotalOrder(leq)
    ensures Sort(Remove(x, ephemeral), PairName(), leq) == Sort(Remove(y, ephemeral), PairName(), leq) <==>
      SameValues(x, y, ephemeral)
  {
    var kept, kept' := Remove(x, ephemeral), Remove(y, ephemeral);
    var s, t := Sort(kept, PairName(), leq), Sort(kept', PairName(), leq);
    SortIsStable(kept, PairName(), leq);
    SortIsStable(kept', PairName(), leq);
    forall n
      ensures Only(s, PairName(), n) == if n in ephemeral then [] else Only(x, PairName(), n)
      ensures Only(t, PairName(), n) == if n in ephemeral then [] else Only(y, PairName(), n)
    {
      OnlyRemoved(x, ephemeral, n);
      OnlyRemoved(y, ephemeral, n);
    }
    if SameValues(x, y, ephemeral) {
      SortedUnique(s, t, PairName(), leq);
    }
  }

  /** What the comparison key is for. Two URLs have the same key exactly when they agree up to query and
      fragment and every parameter that is not ephemeral has the same values in the same order;
      the order among different parameters, ephemeral ones and the fragment make no difference.
      The serialisation has to tell lists apart, and to write the empty list and no other as
      nothing. */
  lemma SameKeyExactly(url: string, other: string, ephemeral: seq<string>, decode: Decoder,
    leq: (string, string) -> bool, show: seq<Pair> -> string)
    requires TotalOrder(leq)
    requires show([]) == "" && forall x, y :: show(x) == show(y) ==> x == y
    ensures ComparisonKey(url, ephemeral, decode, leq, show) == ComparisonKey(other, ephemeral, decode, leq, show) <==>
      BaseOf(url) == BaseOf(other) && SameValues(ParametersOf(url, decode), ParametersOf(other, decode), ephemeral)
  {
    var x, y := ParametersOf(url, decode), ParametersOf(other, decode);
    KeyIsBaseAndTail(url, ephemeral, decode, leq, show);
    KeyIsBaseAndTail(other, ephemeral, decode, leq, show);
    SameSortedExactly(x, y, ephemeral, leq);
    SameTail(x, y, ephemeral, leq, show);
    if BaseOf(url) + Tail(x, ephemeral, leq, show) == BaseOf(other) + Tail(y, ephemeral, leq, show) {
      CutAtMark(BaseOf(url), BaseOf(other), Tail(x, ephemeral, leq, show), Tail(y, ephemeral, leq, show));
    }
  }

  lemma SameTail(x: seq<Pair>, y: seq<Pair>, ephemeral: seq<string>, leq: (string, string) -> bool,
    show: seq<Pair> -> string)
    requires forall x, y :: show(x) == show(y) ==> x == y
    ensures Tail(x, ephemeral, leq, show) == Tail(y, ephemeral, leq, show) <==>
      Sort(Remove(x, ephemeral), PairName(), leq) == Sort(Remove(y, ephemeral), PairName(), leq)
  {
    var s, t := Sort(Remove(x, ephemeral), PairName(), leq), Sort(Remove(y, ephemeral), PairName(), leq);
    if Tail(x, ephemeral, leq, show) == Tail(y, ephemeral, leq, show) {
      assert Tail(x, ephemeral, leq, show) != "" ==>
        show(s) == Tail(x, ephemeral, leq, show)[1..] && show(t) == Tail(y, ephemeral, leq, show)[1..];
      assert show(s) == show(t);
    }
  }

  // ---------------------------------------------------------------- the mark matters

  /** The parameters of a marked text: the first field's pair gives way to the unmarked one. */
  lemma ParseMarked(text: string, decode: Decoder)
    requires Marked(text)
    ensures Fields(text) != [] && Fields(text)[0] != []
    ensures multiset(Parse(text, decode)) + multiset{PairOf(Fields(text)[0], decode)} ==
      multiset(Pairs(Fields(text), decode)) + multiset(Pairs(Unmark(Fields(text)[0]), decode))
  {
    UnmarkFirst(text);
    var f, rest := Fields(text)[0], Fields(text)[1..];
    assert Fields(text) == [f] + rest;
    PairsCons(f, rest, decode);
    if Unmark(f) != [] {
      PairsCons(f[1..], rest, decode);
      PairsCons(f[1..], [], decode);
      assert Unmark(f) + rest == [f[1..]] + rest && Unmark(f) == [f[1..]] + [];
    } else {
      assert Unmark(f) + rest == rest;
    }
  }

  /** Decoding leaves a leading mark alone, as percent-decoding does. */
  ghost predicate KeepsMark(decode: Decoder) {
    forall s :: decode("?" + s) == "?" + decode(s)
  }

  predicate MarkedName(p: Pair) {
    p.name != [] && p.name[0] == '?'
  }

  lemma UnmarkDiffers(f: string, decode: Decoder)
    requires f != [] && f[0] == '?' && KeepsMark(decode)
    ensures PairOf(f, decode) !in Pairs(Unmark(f), decode) && MarkedName(PairOf(f, decode))
  {
    var rest := f[1..];
    var n := Find(rest, '=');
    FindIs(f, '=', n + 1);
    assert f[..n + 1] == "?" + rest[..n];
    assert PairOf(f, decode).name == "?" + decode(rest[..n]);
    if Unmark(f) != [] {
      assert Pairs(Unmark(f), decode) == [PairOf(rest, decode)];
      assert PairOf(rest, decode).name == decode(rest[..n]);
    }
  }

  lemma {:induction false} RemoveCount(pairs: seq<Pair>, names: seq<string>, p: Pair)
    requires p.name !in names
    ensures multiset(Remove(pairs, names))[p] == multiset(pairs)[p]
  {
    if pairs != [] {
      RemoveCount(pairs[1..], names, p);
      assert pairs == [pairs[0]] + pairs[1..];
    }
  }

  /** Equal keys come from equal parameters when the serialisation tells parameter lists apart. */
  lemma SameKeySameParameters(base: string, p: seq<Pair>, p': seq<Pair>,
    leq: (string, string) -> bool, show: seq<Pair> -> string)
    requires forall x, y :: show(x) == show(y) ==> x == y
    requires var s, s' := show(Sort(p, PairName(), leq)), show(Sort(p', PairName(), leq));
      base + (if s == "" then "" else "?" + s) == base + (if s' == "" then "" else "?" + s')
    ensures multiset(p) == multiset(p')
  {
    var s, s' := show(Sort(p, PairName(), leq)), show(Sort(p', PairName(), leq));
    var x, x' := if s == "" then "" else "?" + s, if s' == "" then "" else "?" + s';
    assert (base + x)[|base|..] == x && (base + x')[|base|..] == x';
    assert s == s' by {
      assert s != "" ==> x[1..] == s;
      assert s' != "" ==> x'[1..] == s';
    }
    SortPermutes(p, PairName(), leq);
    SortPermutes(p', PairName(), leq);
  }

  /** A parameter is rarer than the fields that spell it exactly when taking the mark off changed
      one of them. */
  lemma ParseLoses(text: string, decode: Decoder, d: Pair)
    requires KeepsMark(decode)
    ensures Marked(text) ==> Fields(text) != []
    ensures multiset(Parse(text, decode))[d] < multiset(Pairs(Fields(text), decode))[d] <==>
            Marked(text) && d == PairOf(Fields(text)[0], decode)
  {
    if Marked(text) {
      ParseMarked(text, decode);
      UnmarkFirst(text);
      var f := Fields(text)[0];
      UnmarkDiffers(f, decode);
      Replaced(multiset(Parse(text, decode)), PairOf(f, decode), multiset(Pairs(Fields(text), decode)),
        multiset(Pairs(Unmark(f), decode)), d);
    }
  }

  lemma Replaced(p: multiset<Pair>, a: Pair, all: multiset<Pair>, u: multiset<Pair>, d: Pair)
    requires p + multiset{a} == all + u && a !in u
    ensures p[d] < all[d] <==> d == a
  {
    assert (p + multiset{a})[d] == all[d] + u[d];
  }

  /** For a decoding that leaves a leading mark alone, ephemeral names that do not start with one
      and a serialisation that tells parameter lists apart, sorting keeps the key only if the
      query is mark-safe: the condition is exact. */
  lemma KeyNeedsMark(url: string, ephemeral: seq<string>, decode: Decoder,
    leq: (string, string) -> bool, show: seq<Pair> -> string)
    requires HasQuery(url)
    requires KeepsMark(decode) && forall n :: n in ephemeral ==> !Marked(n)
    requires forall x, y :: show(x) == show(y) ==> x == y
    requires ComparisonKey(SortQuery(url, decode), ephemeral, decode, leq, show)
          == ComparisonKey(url, ephemeral, decode, leq, show)
    ensures MarkSafe(url, decode)
  {
    MarkSafeExactly(url, decode);
    SortKeepsFrame(url, decode);
    SortIsStableByName(url, decode);
    var text, text' := QueryText(url), QueryText(SortQuery(url, decode));
    var p, p' := Parse(text, decode), Parse(text', decode);
    SameKeySameParameters(url[..Find(url, '?')], Remove(p, ephemeral), Remove(p', ephemeral), leq, show);
    forall c | MarkedName(c)
      ensures multiset(p)[c] == multiset(p')[c]
    {
      RemoveCount(p, ephemeral, c);
      RemoveCount(p', ephemeral, c);
    }
    SortedFields(text, decode);
    SortImage(Fields(text), Name(decode), TextLeq, (f: string) => PairOf(f, decode));
    SameParametersSameMark(text, text', decode);
  }

  lemma SameParametersSameMark(text: string, text': string, decode: Decoder)
    requires KeepsMark(decode)
    requires StablySorted(Fields(text), Fields(text'), Name(decode), TextLeq)
    requires multiset(Pairs(Fields(text), decode)) == multiset(Pairs(Fields(text'), decode))
    requires forall c :: MarkedName(c) ==> multiset(Parse(text, decode))[c] == multiset(Parse(text', decode))[c]
    ensures Marked(text) == Marked(text')
    ensures Marked(text) ==> Fields(text)[..1] == Fields(text')[..1]
  {
    if Marked(text) {
      UnmarkFirst(text);
      var f := Fields(text)[0];
      UnmarkDiffers(f, decode);
      ParseLoses(text, decode, PairOf(f, decode));
      ParseLoses(text', decode, PairOf(f, decode));
      SameFirst(Fields(text), Fields(text'), decode);
    } else if Marked(text') {
      UnmarkFirst(text');
      var f := Fields(text')[0];
      UnmarkDiffers(f, decode);
      ParseLoses(text, decode, PairOf(f, decode));
      ParseLoses(text', decode, PairOf(f, decode));
    }
  }

  lemma PairNamed(f: string, decode: Decoder)
    ensures PairOf(f, decode).name == Name(decode)(f)
  {
    assert PairOf(f, decode).name == decode(RawName(f));
  }

  /** Of two lists with the same fields for every name, first fields of one name are the same. */
  lemma SameFirst(before: seq<string>, after: seq<string>, decode: Decoder)
    requires StablySorted(before, after, Name(decode), TextLeq)
    requires before != [] && after != [] && PairOf(before[0], decode) == PairOf(after[0], decode)
    ensures before[..1] == after[..1]
  {
    var n := Name(decode)(before[0]);
    PairNamed(before[0], decode);
    PairNamed(after[0], decode);
    assert Only(before, Name(decode), n)[0] == before[0];
    assert Only(after, Name(decode), n)[0] == after[0];
  }

  /** Not every query is mark-safe. With two fields, of which only the second starts with a mark
      and sorts first, the URL library takes that mark off after sorting only. */
  lemma MarkMoves(x: string, y: string, decode: Decoder)
    requires IsField(x) && IsField(y) && '#' !in x && '#' !in y
    requires x[0] != '?' && y[0] == '?'
    requires !TextLeq(Name(decode)(x), Name(decode)(y))
    ensures var url := "?" + (x + "&" + y); HasQuery(url) && !MarkSafe(url, decode)
  {
    BareQuery(x + "&" + y);
    FieldsCut(x, y);
    FieldsCut(y, "");
    TextTotal(Name(decode)(x), Name(decode)(y));
    TextTotal(Name(decode)(y), Name(decode)(y));
    LeaderMarked(x + "&" + y, [x, y], 1, decode);
  }

  /** So it does with a single field that starts with a mark and stands behind an empty one. */
  lemma MarkAppears(y: string, decode: Decoder)
    requires IsField(y) && '#' !in y && y[0] == '?'
    ensures var url := "?" + ("&" + y); HasQuery(url) && !MarkSafe(url, decode)
  {
    BareQuery("&" + y);
    FieldBehindEmpty(y);
    TextTotal(Name(decode)(y), Name(decode)(y));
    LeaderMarked("&" + y, [y], 0, decode);
  }

  lemma FieldBehindEmpty(y: string)
    requires IsField(y)
    ensures Fields("&" + y) == [y]
  {
    assert "&" + y == "" + "&" + y;
    FieldsCut("", y);
    FieldsCut(y, "");
  }

  lemma LeaderMarked(text: string, fields: seq<string>, i: nat, decode: Decoder)
    requires Fields(text) == fields && Leads(fields, i, Name(decode), TextLeq)
    requires !Marked(text) && Marked(fields[i])
    ensures !SafeQuery(text, decode)
  {
  }

  /** A URL that is nothing but a query. */
  lemma BareQuery(text: string)
    requires '#' !in text
    ensures HasQuery("?" + text) && QueryText("?" + text) == text
  {
    Reads("", text, "");
    assert "?" + text == "" + "?" + text + "";
  }

  lemma NamesItself(f: string, decode: Decoder)
    requires '=' !in f && forall s :: decode(s) == s
    ensures Name(decode)(f) == f
  {
    FindIs(f, '=', |f|);
    assert Name(decode)(f) == decode(RawName(f)) == f[..|f|] == f;
  }

  lemma MarkMovesFor(decode: Decoder) returns (url: string)
    requires forall s :: decode(s) == s
    ensures url == "?b&?a"
    ensures HasQuery(url) && !MarkSafe(url, decode)
  {
    NamesItself("b", decode);
    NamesItself("?a", decode);
    MarkMoves("b", "?a", decode);
    url := "?" + ("b" + "&" + "?a");
  }

  /** Where a query is not mark-safe the keys differ: the URL compares as another one once it is
      sorted. */
  lemma KeyChanges(url: string, ephemeral: seq<string>, decode: Decoder,
    leq: (string, string) -> bool, show: seq<Pair> -> string)
    requires HasQuery(url) && !MarkSafe(url, decode)
    requires KeepsMark(decode) && forall n :: n in ephemeral ==> !Marked(n)
    requires forall x, y :: show(x) == show(y) ==> x == y
    ensures ComparisonKey(SortQuery(url, decode), ephemeral, decode, leq, show)
         != ComparisonKey(url, ephemeral, decode, leq, show)
  {
    var after, before :=
      ComparisonKey(SortQuery(url, decode), ephemeral, decode, leq, show),
      ComparisonKey(url, ephemeral, decode, leq, show);
    if after == before {
      KeyNeedsMark(url, ephemeral, decode, leq, show);
    }
  }

  /** So they do for the URL "?b&?a". */
  lemma KeyChangesFor(decode: Decoder, leq: (string, string) -> bool, show: seq<Pair> -> string) returns (url: string)
    requires forall s :: decode(s) == s
    requires forall x, y :: show(x) == show(y) ==> x == y
    ensures url == "?b&?a"
    ensures ComparisonKey(SortQuery(url, decode), [], decode, leq, show) != ComparisonKey(url, [], decode, leq, show)
  {
    url := MarkMovesFor(decode);
    KeyChanges(url, [], decode, leq, show);
  }

  // ---------------------------------------------------------------- the sorting loop

  method Locate(s: string, c: char, start: nat) returns (i: nat)
    requires start <= |s|
    ensures i == start + Find(s[start..], c)
  {
    i := start;
    while i < |s| && s[i] != c
      invariant start <= i <= |s|
      invariant forall k :: start <= k < i ==> s[k] != c
    {
      i := i + 1;
    }
    FindIs(s[start..], c, i - start);
  }

  /** A separator behind the end of the query counts as none. */
  lemma FindWithin(s: string, c: char, start: nat, end: nat)
    requires start <= end <= |s|
    ensures var found := start + Find(s[start..], c);
      (if found < end then found else end) == start + Find(s[start..end], c)
  {
    var found := start + Find(s[start..], c);
    var stop := if found < end then found else end;
    assert forall k :: 0 <= k < end - start ==> s[start..end][k] == s[start..][k];
    FindIs(s[start..end], c, stop - start);
  }

  datatype Named = Named(name: string, field: string)

  function NameIn(): Named -> string {
    (n: Named) => n.name
  }

  function FieldIn(): Named -> string {
    (n: Named) => n.field
  }

  /** Every record carries the decoded name of its field. */
  ghost predicate WellNamed(records: seq<Named>, decode: Decoder) {
    forall i :: 0 <= i < |records| ==> records[i].name == Name(decode)(records[i].field)
  }

  /** The loop, the stable sort and the assembly produce the specified URL. */
  method SortUrlQueryParameters(url: string, decode: Decoder) returns (sorted: string)
    ensures sorted == SortQuery(url, decode)
  {
    assert url[0..] == url;
    var fragment := Locate(url, '#', 0);
    var query := Locate(url, '?', 0);
    if query == |url| || query > fragment {
      return url;
    }
    assert query != fragment;
    var joined := SortFields(url, query + 1, fragment, decode);
    sorted := url[..query + 1] + joined + url[fragment..];
  }

  /** The fields between two positions, stably sorted by decoded name and joined again. */
  method SortFields(url: string, first: nat, end: nat, decode: Decoder) returns (joined: string)
    requires first <= end <= |url|
    ensures joined == Join(Sort(Fields(url[first..end]), Name(decode), TextLeq))
  {
    var records := SplitFields(url, first, end, decode);
    FieldsInText(url, first, end);
    SortProject(records, NameIn(), FieldIn(), Name(decode), TextLeq);
    joined := JoinRecords(Sort(records, NameIn(), TextLeq));
  }

  method JoinRecords(ordered: seq<Named>) returns (joined: string)
    ensures joined == Join(Image(ordered, FieldIn()))
  {
    ghost var fields := Image(ordered, FieldIn());
    joined := "";
    for index := 0 to |ordered|
      invariant joined == Join(fields[..index])
    {
      assert fields[..index + 1][..index] == fields[..index];
      if index != 0 {
        joined := joined + "&";
      }
      joined := joined + ordered[index].field;
    }
    assert fields[..|ordered|] == fields;
  }

  ghost function Stop(url: string, start: nat, end: nat): (stop: nat)
    requires start <= end <= |url|
    ensures start <= stop <= end && (stop < end ==> url[stop] == '&')
    ensures '&' !in url[start..stop]
  {
    assert forall k :: 0 <= k < end - start ==> url[start..end][k] == url[start + k];
    start + Find(url[start..end], '&')
  }

  /** The fields between two positions, as the loop meets them. */
  ghost function FieldsIn(url: string, start: nat, end: nat): seq<string>
    requires start <= end <= |url|
    decreases end - start, 1
  {
    Piece(url, start, Stop(url, start, end)) + FieldsAfter(url, Stop(url, start, end), end)
  }

  ghost function FieldsAfter(url: string, stop: nat, end: nat): seq<string>
    requires stop <= end <= |url|
    decreases end - stop, 0
  {
    if stop == end then [] else FieldsIn(url, stop + 1, end)
  }

  function Piece(url: string, start: nat, stop: nat): seq<string>
    requires start <= stop <= |url|
  {
    if start == stop then [] else [url[start..stop]]
  }

  lemma CutSlice(url: string, start: nat, stop: nat, end: nat)
    requires start <= stop < end <= |url| && url[stop] == '&'
    ensures url[start..end] == url[start..stop] + "&" + url[stop + 1..end]
  {
  }

  lemma OneFieldLeft(url: string, start: nat, end: nat)
    requires start <= end <= |url| && '&' !in url[start..end]
    ensures Fields(url[start..end]) == Piece(url, start, end)
  {
    FieldsCut(url[start..end], "");
  }

  lemma MoreFieldsLeft(url: string, start: nat, stop: nat, end: nat)
    requires start <= stop < end <= |url| && '&' !in url[start..stop] && url[stop] == '&'
    ensures Fields(url[start..end]) == Piece(url, start, stop) + Fields(url[stop + 1..end])
  {
    CutSlice(url, start, stop, end);
    FieldsCut(url[start..stop], url[stop + 1..end]);
  }

  lemma FieldsUnfold(url: string, start: nat, end: nat)
    requires start <= end <= |url|
    ensures var stop := Stop(url, start, end);
      FieldsIn(url, start, end) == Piece(url, start, stop) + if stop == end then [] else FieldsIn(url, stop + 1, end)
  {
  }

  lemma {:induction false} FieldsInText(url: string, start: nat, end: nat)
    requires start <= end <= |url|
    ensures FieldsIn(url, start, end) == Fields(url[start..end])
    decreases end - start
  {
    var stop := Stop(url, start, end);
    FieldsUnfold(url, start, end);
    if stop == end {
      OneFieldLeft(url, start, end);
      NothingAppended(Piece(url, start, stop));
    } else {
      FieldsInText(url, stop + 1, end);
      MoreFieldsLeft(url, start, stop, end);
    }
  }

  lemma NothingAppended<T>(x: seq<T>)
    ensures x + [] == x
  {
  }

  lemma PieceTaken(records: seq<Named>, record: Named, decode: Decoder)
    requires WellNamed(records, decode) && record == Named(Name(decode)(record.field), record.field)
    ensures WellNamed(records + [record], decode)
    ensures Image(records + [record], FieldIn()) == Image(records, FieldIn()) + [record.field]
  {
    ImageConcat(records, [record], FieldIn());
    assert Image([record], FieldIn()) == [record.field];
  }

  method SplitFields(url: string, first: nat, end: nat, decode: Decoder) returns (records: seq<Named>)
    requires first <= end <= |url|
    ensures Image(records, FieldIn()) == FieldsIn(url, first, end)
    ensures WellNamed(records, decode)
  {
    records := [];
    var start := first;
    ghost var done, whole := [], FieldsIn(url, first, end);
    assert done + whole == whole;
    while start <= end
      invariant first <= start <= end
      invariant done == Image(records, FieldIn())
      invariant done + FieldsIn(url, start, end) == whole
      invariant WellNamed(records, decode)
      decreases end - start
    {
      var separator := Locate(url, '&', start);
      FindWithin(url, '&', start, end);
      var fieldEnd := if separator < end then separator else end;
      ghost var piece := Piece(url, start, fieldEnd);
      ghost var rest := FieldsAfter(url, fieldEnd, end);
      assert fieldEnd == Stop(url, start, end);
      Associate(done, piece, rest);
      if fieldEnd != start {
        var record := NameField(url[start..fieldEnd], decode);
        PieceTaken(records, record, decode);
        records := records + [record];
      } else {
        NothingAppended(done);
      }
      done := done + piece;
      if fieldEnd == end {
        NothingAppended(done);
        break;
      }
      start := fieldEnd + 1;
    }
  }

  method NameField(field: string, decode: Decoder) returns (record: Named)
    ensures record == Named(Name(decode)(field), field)
  {
    assert field[0..] == field;
    var equals := Locate(field, '=', 0);
    record := Named(decode(field[..equals]), field);
    assert Name(decode)(field) == decode(RawName(field));
  }
}
