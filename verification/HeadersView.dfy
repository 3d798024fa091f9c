// The memoising header view: HeadersProxy and its pool.
module HeadersView {
  import opened Base
  import opened HttpHeaders

  // The order of sort.Strings.

  predicate Less(a: string, b: string)
    decreases |a|
  {
    b != [] && (a == [] || a[0] < b[0] || (a[0] == b[0] && Less(a[1..], b[1..])))
  }

  lemma {:induction false} LessTotal(a: string, b: string)
    ensures a == b || Less(a, b) || Less(b, a)
    ensures !(Less(a, b) && Less(b, a)) && !Less(a, a)
    decreases |a|
  {
    if a != [] {
      LessTotal(a[1..], a[1..]);
      if b != [] && a[0] == b[0] {
        LessTotal(a[1..], b[1..]);
        assert a == [a[0]] + a[1..] && b == [b[0]] + b[1..];
      }
    }
  }

  lemma {:induction false} LessTransitive(a: string, b: string, c: string)
    requires Less(a, b) && Less(b, c)
    ensures Less(a, c)
    decreases |a|
  {
    if a != [] && a[0] == b[0] && b[0] == c[0] { LessTransitive(a[1..], b[1..], c[1..]); }
  }

  // a comes before b where they first differ, or b goes on where a ends.
  lemma {:induction false} LessExactly(a: string, b: string)
    ensures Less(a, b) <==> exists k :: 0 <= k <= |a| && k < |b| && a[..k] == b[..k] && (k == |a| || a[k] < b[k])
    decreases |a|
  {
    if b != [] {
      if a == [] || a[0] < b[0] {
        assert a[..0] == b[..0];
      } else if a[0] == b[0] {
        var c, d := a[1..], b[1..];
        LessExactly(c, d);
        if k :| 0 <= k <= |c| && k < |d| && c[..k] == d[..k] && (k == |c| || c[k] < d[k]) {
          assert a[..k + 1] == [a[0]] + c[..k] && b[..k + 1] == [b[0]] + d[..k];
        }
        if k :| 0 <= k <= |a| && k < |b| && a[..k] == b[..k] && (k == |a| || a[k] < b[k]) {
          assert k > 0;
          assert c[..k - 1] == a[..k][1..] && d[..k - 1] == b[..k][1..];
        }
      } else {
        forall k | 0 < k <= |a| && k < |b| ensures a[..k] != b[..k] {
          assert a[..k][0] != b[..k][0];
        }
      }
    }
  }

  ghost predicate Sorted(s: seq<string>) { forall i, j :: 0 <= i < j < |s| ==> !Less(s[j], s[i]) }

  // Sorted, and each once.
  ghost predicate Ascending(s: seq<string>) { forall i, j :: 0 <= i < j < |s| ==> Less(s[i], s[j]) }

  function Insert(k: string, s: seq<string>): (t: seq<string>)
    ensures multiset(t) == multiset(s) + multiset{k}
  {
    if s == [] || !Less(s[0], k) then [k] + s
    else
      assert s == [s[0]] + s[1..];
      [s[0]] + Insert(k, s[1..])
  }

  function Sort(s: seq<string>): (t: seq<string>)
    ensures multiset(t) == multiset(s)
  {
    if s == [] then []
    else
      assert s == [s[0]] + s[1..];
      Insert(s[0], Sort(s[1..]))
  }

  lemma {:induction false} InsertSorted(k: string, s: seq<string>)
    requires Sorted(s)
    ensures Sorted(Insert(k, s))
    ensures Insert(k, s)[0] == k || (s != [] && Insert(k, s)[0] == s[0] && Less(s[0], k))
  {
    if s == [] {
    } else if !Less(s[0], k) {
      forall i | 0 <= i < |s| ensures !Less(s[i], k) {
        if i > 0 && Less(s[i], k) {
          LessTotal(s[0], s[i]);
          if Less(s[0], s[i]) { LessTransitive(s[0], s[i], k); }
        }
      }
    } else {
      InsertSorted(k, s[1..]);
      var t := Insert(k, s[1..]);
      forall i | 0 <= i < |t| ensures !Less(t[i], s[0]) {
        assert t[i] in multiset(t);
        LessTotal(s[0], k);
        if t[i] != k {
          assert t[i] in s[1..];
          var j :| 0 <= j < |s[1..]| && s[1..][j] == t[i];
          assert !Less(s[j + 1], s[0]);
        }
      }
    }
  }

  lemma {:induction false} SortSorts(s: seq<string>)
    ensures Sorted(Sort(s))
  {
    if s != [] {
      SortSorts(s[1..]);
      InsertSorted(s[0], Sort(s[1..]));
    }
  }

  ghost function Elements(s: seq<string>): set<string> { set k | k in s }

  predicate Distinct(s: seq<string>) { forall i, j :: 0 <= i < j < |s| ==> s[i] != s[j] }

  // Sorting a list without repeats puts its elements in ascending order.
  lemma SortDistinct(s: seq<string>)
    requires Distinct(s)
    ensures Ascending(Sort(s)) && Elements(Sort(s)) == Elements(s)
  {
    var t := Sort(s);
    SortSorts(s);
    forall k ensures k in t <==> k in s { assert k in multiset(t) <==> k in multiset(s); }
    DistinctCount(s);
    forall i, j | 0 <= i < j < |t| ensures Less(t[i], t[j]) {
      LessTotal(t[i], t[j]);
      assert t[i] in s && multiset(t)[t[i]] == 1;
      if t[i] == t[j] { RepeatCount(t, i, j); }
    }
  }

  lemma {:induction false} DistinctCount(s: seq<string>)
    requires Distinct(s)
    ensures forall k :: k in s ==> multiset(s)[k] == 1
  {
    if s != [] {
      assert s == [s[0]] + s[1..];
      DistinctCount(s[1..]);
      forall k | k in s ensures multiset(s)[k] == 1 {
        if k == s[0] { assert k !in s[1..]; assert k !in multiset(s[1..]); } else { assert k in s[1..]; }
      }
    }
  }

  lemma RepeatCount(s: seq<string>, i: nat, j: nat)
    requires i < j < |s| && s[i] == s[j]
    ensures multiset(s)[s[i]] >= 2
  {
    assert s == s[..j] + s[j..];
    assert s[..j][i] in multiset(s[..j]) && s[j..][0] in multiset(s[j..]);
  }

  lemma HeadIn(s: seq<string>)
    ensures s != [] ==> s[0] in Elements(s)
  {}

  // Only one ascending list has given elements.
  lemma {:induction false} AscendingUnique(s: seq<string>, t: seq<string>)
    requires Ascending(s) && Ascending(t) && Elements(s) == Elements(t)
    ensures s == t
  {
    HeadIn(s);
    HeadIn(t);
    if s != [] {
      var i :| 0 <= i < |t| && t[i] == s[0];
      var j :| 0 <= j < |s| && s[j] == t[0];
      LessTotal(s[0], t[0]);
      assert s[0] == t[0];
      forall k ensures k in s[1..] <==> k in t[1..] {
        TailElements(s, k);
        TailElements(t, k);
        assert k in Elements(s) <==> k in Elements(t);
      }
      AscendingUnique(s[1..], t[1..]);
    }
  }

  lemma TailElements(s: seq<string>, k: string)
    requires s != [] && Ascending(s)
    ensures k in s[1..] <==> k in s && k != s[0]
  {
    LessTotal(s[0], s[0]);
    if k in s && k != s[0] {
      var i :| 0 <= i < |s| && s[i] == k;
      assert s[1..][i - 1] == k;
    }
  }

  // HeadersProxy: the header it shows (nil at first), the values it has read, and
  // the names.
  datatype View = View(header: Option<Header>, cache: map<string, string>, keys: seq<string>)

  const Clean := View(None, map[], [])

  function Current(v: View): Header { if v.header.Some? then v.header.value else map[] }

  // The names of h, in the order in which the map is read.
  predicate NamesOf(h: Header, names: seq<string>) {
    Distinct(names) && (forall k :: k in names ==> k in h) && (forall k :: k in h ==> k in names)
  }

  function Using(v: View, h: Header, names: seq<string>): View {
    View(Some(h), v.cache, Sort(v.keys + names))
  }

  // Get remembers what it found; None is undefined.
  function GetKey(v: View, key: string): (View, Option<string>) {
    if key in v.cache then (v, Some(v.cache[key]))
    else if Get(Current(v), key) == "" then (v, None)
    else (v.(cache := v.cache[key := Get(Current(v), key)]), Some(Get(Current(v), key)))
  }

  predicate HasKey(v: View, key: string) { key in v.keys }

  // The view shows the current header and nothing else.
  ghost predicate Faithful(v: View) {
    && (forall k :: k in v.cache ==> v.cache[k] == Get(Current(v), k) != "")
    && Ascending(v.keys) && Elements(v.keys) == Current(v).Keys
  }

  lemma UseIsFaithful(h: Header, names: seq<string>)
    requires NamesOf(h, names)
    ensures Faithful(Using(Clean, h, names))
  {
    assert [] + names == names;
    SortDistinct(names);
  }

  lemma GetIsFaithful(v: View, key: string)
    requires Faithful(v)
    ensures Faithful(GetKey(v, key).0) && Current(GetKey(v, key).0) == Current(v)
    ensures GetKey(v, key).1 == if Get(Current(v), key) == "" then None else Some(Get(Current(v), key))
  {}

  // A view that is given a second header without having been returned to its pool is
  // faithful to it exactly when the first had no fields at all.
  lemma UsedTwiceExactly(v: View, h: Header, names: seq<string>)
    requires Faithful(v) && NamesOf(h, names)
    ensures Faithful(Using(v, h, names)) <==> Current(v) == map[]
  {
    if Current(v) == map[] {
      EmptyIsClean(v);
      assert v.keys + names == names;
      SortDistinct(names);
    } else {
      var k :| k in Current(v).Keys;
      RepeatedKey(v, h, names, k);
    }
  }

  lemma EmptyIsClean(v: View)
    requires Faithful(v) && Current(v) == map[]
    ensures v.keys == [] && forall k :: k !in v.cache
  {
    HeadIn(v.keys);
  }

  // A name of the first header is left over, or stands twice.
  lemma RepeatedKey(v: View, h: Header, names: seq<string>, k: string)
    requires Elements(v.keys) == Current(v).Keys && NamesOf(h, names) && k in Current(v).Keys
    ensures !Faithful(Using(v, h, names))
  {
    var keys := Sort(v.keys + names);
    assert k in v.keys by { assert k in Elements(v.keys); }
    assert multiset(v.keys + names) == multiset(v.keys) + multiset(names);
    assert k in multiset(v.keys);
    if k in names {
      assert multiset(keys)[k] >= 2 by { assert k in multiset(names); }
      NotTwice(keys, k);
    } else {
      assert k in keys by { assert k in multiset(keys); }
      assert k in Elements(keys) && k !in h;
    }
  }

  lemma NotTwice(s: seq<string>, k: string)
    requires multiset(s)[k] >= 2
    ensures !Ascending(s)
  {
    if Ascending(s) {
      AscendingDistinct(s);
      DistinctCount(s);
    }
  }

  lemma AscendingDistinct(s: seq<string>)
    requires Ascending(s)
    ensures Distinct(s)
  {
    forall i, j | 0 <= i < j < |s| ensures s[i] != s[j] { LessTotal(s[i], s[j]); }
  }

  // Any number of requests.

  datatype Op =
    | Use(header: Header, names: seq<string>) // out of the pool, and UseHeader
    | Read(key: string)
    | Return                                  // Put: unsetHeader, and into the pool

  function Apply(v: View, o: Op): View {
    match o
    case Use(h, names) => Using(v, h, names)
    case Read(key) => GetKey(v, key).0
    case Return => Clean
  }

  function Run(v: View, ops: seq<Op>): View {
    if ops == [] then v else Apply(Run(v, ops[..|ops| - 1]), ops[|ops| - 1])
  }

  // The header in use after ops, told from the list alone.
  function InUse(ops: seq<Op>): Option<Header> {
    if ops == [] then None
    else match ops[|ops| - 1]
         case Use(h, _) => Some(h)
         case Return => None
         case Read(_) => InUse(ops[..|ops| - 1])
  }

  // A view is given a header only when it comes from the pool.
  predicate Disciplined(ops: seq<Op>) {
    forall i :: 0 <= i < |ops| && ops[i].Use? ==> NamesOf(ops[i].header, ops[i].names) && InUse(ops[..i]).None?
  }

  // Whatever was read before, in this request or an earlier one, the view shows the
  // header in use now and no value of any other: every cached value is the header's,
  // the keys are its names in order, each once, and a read gives what the header has.
  lemma {:induction false} AlwaysFaithful(ops: seq<Op>)
    requires Disciplined(ops)
    ensures var v := Run(Clean, ops);
      && Faithful(v) && v.header == InUse(ops) && (v.header.None? ==> v.cache == map[] && v.keys == [])
      && forall key :: GetKey(v, key).1 == if Get(Current(v), key) == "" then None else Some(Get(Current(v), key))
  {
    var v := Run(Clean, ops);
    if ops != [] {
      var p, o := ops[..|ops| - 1], ops[|ops| - 1];
      assert Disciplined(p) by {
        forall i | 0 <= i < |p| && p[i].Use? ensures NamesOf(p[i].header, p[i].names) && InUse(p[..i]).None? {
          assert ops[i] == p[i] && ops[..i] == p[..i];
        }
      }
      AlwaysFaithful(p);
      match o {
        case Use(h, names) =>
          assert InUse(ops[..|ops| - 1]).None?;
          UseIsFaithful(h, names);
          assert Run(Clean, p) == Clean;
        case Read(key) => GetIsFaithful(Run(Clean, p), key);
        case Return =>
      }
    }
    forall key ensures GetKey(v, key).1 == if Get(Current(v), key) == "" then None else Some(Get(Current(v), key)) {
      GetIsFaithful(v, key);
    }
  }

  // The class.
  class HeadersProxy {
    var header: Option<Header>
    var nativeProperties: map<string, string>
    var keys: seq<string>

    constructor ()
      ensures Now() == Clean == View(None, map[], [])
    {
      header, nativeProperties, keys := None, map[], [];
    }

    ghost function Now(): View
      reads this
    {
      View(header, nativeProperties, keys)
    }

    // The map is read in some order.
    method UseHeader(h: Header) returns (ghost names: seq<string>)
      modifies this
      ensures NamesOf(h, names)
      ensures Now() == Using(old(Now()), h, names)
      ensures header == Some(h) && nativeProperties == old(nativeProperties)
      ensures Sorted(keys) && multiset(keys) == multiset(old(keys)) + multiset(names)
    {
      header := Some(h);
      var left := h.Keys;
      names := [];
      while left != {}
        invariant header == Some(h) && nativeProperties == old(nativeProperties)
        invariant keys == old(keys) + names && Distinct(names) && left <= h.Keys
        invariant forall k :: k in names <==> k in h && k !in left
      {
        var k :| k in left;
        keys := keys + [k];
        names := names + [k];
        left := left - {k};
      }
      SortSorts(keys);
      keys := Sort(keys);
    }

    method UnsetHeader()
      modifies this
      ensures Now() == Clean == View(None, map[], [])
    {
      while nativeProperties != map[]
        invariant header == old(header) && keys == old(keys)
        decreases |nativeProperties|
      {
        var k :| k in nativeProperties;
        Removed(nativeProperties, k);
        nativeProperties := nativeProperties - {k};
      }
      keys := [];
      header := None;
    }

    method Get(key: string) returns (v: Option<string>)
      modifies `nativeProperties
      ensures (Now(), v) == GetKey(old(Now()), key)
      ensures key in old(nativeProperties) ==>
        v == Some(old(nativeProperties)[key]) && nativeProperties == old(nativeProperties)
      ensures key !in old(nativeProperties) ==>
        && v == (var vs := if header.Some? then Values(header.value, key) else [];
                 if vs == [] || vs[0] == "" then None else Some(vs[0]))
        && nativeProperties == if v.Some? then old(nativeProperties)[key := v.value] else old(nativeProperties)
    {
      if key !in nativeProperties {
        var s := HttpHeaders.Get(if header.Some? then header.value else map[], key);
        if s == "" { return None; }
        nativeProperties := nativeProperties[key := s];
      }
      return Some(nativeProperties[key]);
    }

    method Has(key: string) returns (has: bool)
      ensures has == HasKey(Now(), key) && (has <==> key in keys)
    {
      var i := 0;
      while i < |keys|
        invariant 0 <= i <= |keys| && key !in keys[..i]
      {
        if keys[i] == key { return true; }
        assert keys[..i + 1] == keys[..i] + [keys[i]];
        i := i + 1;
      }
      assert keys[..i] == keys;
      return false;
    }
  }

  lemma Removed(m: map<string, string>, k: string)
    requires k in m
    ensures |m - {k}| < |m|
  {
    assert (m - {k}).Keys == m.Keys - {k};
    assert |m.Keys| == |m| && |(m - {k}).Keys| == |m - {k}|;
  }
}
