// An http.Header, and what res.set makes of it.
module HttpHeaders {
  import opened Base

  // Canonical names: for a name made of token characters, the letter at the start
  // and after each hyphen in upper case and the others in lower case; any other
  // name as it is.

  predicate IsTokenChar(c: char) {
    || 'a' <= c <= 'z' || 'A' <= c <= 'Z' || '0' <= c <= '9'
    || c in {'!', '#', '$', '%', '&', '\'', '*', '+', '-', '.', '^', '_', '`', '|', '~'}
  }

  predicate IsToken(s: string) { forall i :: 0 <= i < |s| ==> IsTokenChar(s[i]) }

  function Upper(c: char): (u: char)
    ensures u as int == if 97 <= c as int <= 122 then c as int - 32 else c as int
  {
    if 'a' <= c <= 'z' then (c as int - 32) as char else c
  }

  function Lower(c: char): (l: char)
    ensures l as int == if 65 <= c as int <= 90 then c as int + 32 else c as int
  {
    if 'A' <= c <= 'Z' then (c as int + 32) as char else c
  }

  // What changing the case of a character keeps.
  lemma CaseFacts(c: char, d: char)
    ensures Upper(c) == Upper(d) <==> Lower(c) == Lower(d)
    ensures Upper(Upper(c)) == Upper(c) && Lower(Lower(c)) == Lower(c)
    ensures (Upper(c) == '-' <==> c == '-') && (Lower(c) == '-' <==> c == '-')
  {
    assert Upper(c) == Upper(d) <==> Upper(c) as int == Upper(d) as int;
    assert Lower(c) == Lower(d) <==> Lower(c) as int == Lower(d) as int;
  }

  lemma TokenCase(c: char)
    requires IsTokenChar(c)
    ensures IsTokenChar(Upper(c)) && IsTokenChar(Lower(c))
  {}

  function ToLower(s: string): string { seq(|s|, i requires 0 <= i < |s| => Lower(s[i])) }

  // The letter at i starts a word.
  predicate Starts(s: string, i: nat) { i == 0 || (i <= |s| && s[i - 1] == '-') }

  function Cased(s: string): string {
    seq(|s|, i requires 0 <= i < |s| => if Starts(s, i) then Upper(s[i]) else Lower(s[i]))
  }

  function Canonical(s: string): string { if IsToken(s) then Cased(s) else s }

  // Two field names made of token characters are the same field exactly when they
  // differ only in case (section 5.1 of RFC 9110).
  lemma CanonicalIgnoresCase(s: string, t: string)
    requires IsToken(s) && IsToken(t)
    ensures Canonical(s) == Canonical(t) <==> ToLower(s) == ToLower(t)
  {
    if ToLower(s) == ToLower(t) { SameCased(s, t); }
    if Cased(s) == Cased(t) { SameLower(s, t); }
  }

  lemma SameCased(s: string, t: string)
    requires ToLower(s) == ToLower(t)
    ensures Cased(s) == Cased(t)
  {
    assert |s| == |ToLower(s)| == |ToLower(t)| == |t|;
    forall i | 0 <= i < |s|
      ensures Lower(s[i]) == Lower(t[i]) && Upper(s[i]) == Upper(t[i]) && (s[i] == '-' <==> t[i] == '-')
    {
      assert ToLower(s)[i] == ToLower(t)[i];
      CaseFacts(s[i], t[i]);
      CaseFacts(t[i], s[i]);
    }
    forall i | 0 <= i < |s| ensures Cased(s)[i] == Cased(t)[i] {
      if i > 0 { assert s[i - 1] == '-' <==> t[i - 1] == '-'; }
    }
  }

  lemma SameLower(s: string, t: string)
    requires Cased(s) == Cased(t)
    ensures ToLower(s) == ToLower(t)
  {
    assert |s| == |t|;
    forall i | 0 <= i < |s| ensures Lower(s[i]) == Lower(t[i]) { SameLowerAt(s, t, i); }
  }

  lemma {:induction false} SameLowerAt(s: string, t: string, i: nat)
    requires Cased(s) == Cased(t) && i < |s| == |t|
    ensures Lower(s[i]) == Lower(t[i])
  {
    if i > 0 { SameLowerAt(s, t, i - 1); CaseFacts(s[i - 1], t[i - 1]); CaseFacts(t[i - 1], s[i - 1]); }
    assert Cased(s)[i] == Cased(t)[i];
    CaseFacts(s[i], t[i]);
  }

  lemma CanonicalTwice(s: string)
    ensures Canonical(Canonical(s)) == Canonical(s)
  {
    if IsToken(s) {
      var t := Cased(s);
      assert |t| == |s|;
      forall i | 0 <= i < |t| ensures IsTokenChar(t[i]) && (t[i] == '-' <==> s[i] == '-') {
        assert IsTokenChar(s[i]);
        assert t[i] == Upper(s[i]) || t[i] == Lower(s[i]);
        TokenCase(s[i]);
        CaseFacts(s[i], s[i]);
      }
      forall i | 0 <= i < |t| ensures Cased(t)[i] == t[i] {
        CaseFacts(s[i], s[i]);
        if i > 0 { assert t[i - 1] == '-' <==> s[i - 1] == '-'; }
      }
    }
  }

  // The characters of a token are the visible ones but the delimiters (section 5.6.2
  // of RFC 9110).
  lemma TokenChars(c: char)
    ensures IsTokenChar(c) <==>
      '!' <= c <= '~' &&
      c !in {'\"', '(', ')', ',', '/', ':', ';', '<', '=', '>', '?', '@', '[', '\\', ']', '{', '}'}
  {
    assert '!' <= c <= '~' <==> 33 <= c as int <= 126;
  }

  // A token keeps its letters but for their case: no word starts in lower case, and no
  // upper case stands elsewhere.  Any other name is left as it is.
  lemma CanonicalForm(s: string)
    ensures var t := Canonical(s);
      if forall i :: 0 <= i < |s| ==> IsTokenChar(s[i]) then
        && |t| == |s|
        && forall i :: 0 <= i < |s| ==>
             && Lower(t[i]) == Lower(s[i])
             && if i == 0 || s[i - 1] == '-' then !('a' <= t[i] <= 'z') else !('A' <= t[i] <= 'Z')
      else t == s
  {
    if IsToken(s) {
      forall i | 0 <= i < |s|
        ensures Lower(Cased(s)[i]) == Lower(s[i])
        ensures if i == 0 || s[i - 1] == '-' then !('a' <= Cased(s)[i] <= 'z') else !('A' <= Cased(s)[i] <= 'Z')
      {
        CaseFacts(s[i], Upper(s[i]));
        CaseFacts(s[i], s[i]);
      }
    }
  }

  lemma ContentType()
    ensures IsToken("content-type") && Canonical("content-type") == "Content-Type"
  {
    var t, u := "content-type", "Content-Type";
    assert IsToken(t);
    forall i | 0 <= i < |t| ensures Cased(t)[i] == u[i] {}
  }

  lemma ContentTypeLower()
    ensures IsToken("Content-Type") && ToLower("content-type") == "content-type"
  {
    var t := "content-type";
    forall i | 0 <= i < |t| ensures ToLower(t)[i] == t[i] {}
  }

  // What is a token in lower case is one as it stands.
  lemma LowerToken(s: string)
    requires IsToken(ToLower(s))
    ensures IsToken(s)
  {
    forall i | 0 <= i < |s| ensures IsTokenChar(s[i]) { assert IsTokenChar(ToLower(s)[i]); }
  }

  // The names of the content type, in any case.
  lemma ContentTypeNames(s: string)
    ensures Canonical(s) == "Content-Type" <==> ToLower(s) == "content-type"
    ensures Canonical("content-type") == "Content-Type"
  {
    ContentType();
    ContentTypeLower();
    if IsToken(s) {
      CanonicalIgnoresCase(s, "content-type");
    } else if ToLower(s) == "content-type" {
      LowerToken(s);
    }
  }

  // The header: its values by canonical name.
  type Header = map<string, seq<string>>

  function Values(h: Header, name: string): seq<string> {
    if Canonical(name) in h then h[Canonical(name)] else []
  }

  function Get(h: Header, name: string): string {
    if Values(h, name) == [] then "" else Values(h, name)[0]
  }

  function Put(h: Header, name: string, value: string): Header { h[Canonical(name) := [value]] }

  function Add(h: Header, name: string, value: string): Header {
    h[Canonical(name) := Values(h, name) + [value]]
  }

  // res.set

  // A value: its printed form, and whether it is a slice.
  datatype Value = Value(text: string, slice: bool)

  predicate Refused(name: string, v: Value) { ToLower(name) == "content-type" && v.slice }

  // res.set with two arguments; None is the TypeError.
  function SetField(h: Header, name: string, v: Value): Option<Header> {
    if Refused(name, v) then None
    else if Get(h, name) == "" then Some(Put(h, name, v.text))
    else Some(Add(h, name, v.text))
  }

  // It is refused exactly for a content type, however it is spelled, given as a slice.
  lemma RefusedExactly(h: Header, name: string, v: Value)
    ensures SetField(h, name, v).None? <==> v.slice && Canonical(name) == "Content-Type"
  {
    ContentTypeNames(name);
  }

  // g is h with t for its only content type.
  ghost predicate Retyped(h: Header, g: Header, t: string) {
    Values(g, "content-type") == [t] && forall n :: ToLower(n) != "content-type" ==> Values(g, n) == Values(h, n)
  }

  lemma PutRetypes(h: Header, t: string)
    ensures Retyped(h, Put(h, "content-type", t), t)
  {
    forall n | ToLower(n) != "content-type" ensures Values(Put(h, "content-type", t), n) == Values(h, n) {
      ContentTypeNames(n);
    }
  }

  // What a sequence of values, set one after another, makes of the values there are.
  function SetValues(was: seq<string>, vs: seq<string>): seq<string>
    decreases |vs|
  {
    if vs == [] then was
    else SetValues(if was == [] || was[0] == "" then [vs[0]] else was + [vs[0]], vs[1..])
  }

  // The index of the first value that is not empty.
  function FirstFilled(vs: seq<string>): (k: nat)
    ensures k <= |vs| && (k < |vs| ==> vs[k] != "")
    ensures forall i :: 0 <= i < k ==> vs[i] == ""
  {
    if vs == [] then 0 else if vs[0] != "" then 0 else 1 + FirstFilled(vs[1..])
  }

  lemma {:induction false} AppendsAll(was: seq<string>, vs: seq<string>)
    requires was != [] && was[0] != ""
    ensures SetValues(was, vs) == was + vs
    decreases |vs|
  {
    if vs == [] {
      assert was + vs == was;
    } else {
      AppendsAll(was + [vs[0]], vs[1..]);
      assert was + [vs[0]] + vs[1..] == was + vs;
    }
  }

  // The values left are those from the first that is not empty on, or only the last
  // if all are empty.
  lemma {:induction false} SetLeavesSuffix(was: seq<string>, vs: seq<string>)
    requires vs != [] && (was == [] || was[0] == "")
    ensures SetValues(was, vs) == if FirstFilled(vs) < |vs| then vs[FirstFilled(vs)..] else [vs[|vs| - 1]]
    decreases |vs|
  {
    if vs[0] != "" {
      AppendsAll([vs[0]], vs[1..]);
      assert [vs[0]] + vs[1..] == vs;
    } else if |vs| > 1 {
      SetLeavesSuffix([""], vs[1..]);
      var k := FirstFilled(vs[1..]);
      assert FirstFilled(vs) == 1 + k;
      if k < |vs[1..]| { assert vs[1..][k..] == vs[1 + k..]; }
    }
  }

  // Setting the fields of an object, in the order in which the map gives them: the
  // header it leaves, and whether it went through.
  datatype Field = Field(name: string, value: Value)

  function SetFields(h: Header, fs: seq<Field>): (Header, bool)
    decreases |fs|
  {
    if fs == [] then (h, true)
    else match SetField(h, fs[0].name, fs[0].value)
         case None => (h, false)
         case Some(h') => SetFields(h', fs[1..])
  }

  // What each element yields, in order.
  function Collect<T, U>(s: seq<T>, f: T -> seq<U>): seq<U> {
    if s == [] then [] else f(s[0]) + Collect(s[1..], f)
  }

  lemma Grouped<U>(a: seq<U>, b: seq<U>, c: seq<U>)
    ensures a + (b + c) == (a + b) + c
  {}

  lemma {:induction false} CollectConcat<T, U>(a: seq<T>, b: seq<T>, f: T -> seq<U>)
    ensures Collect(a + b, f) == Collect(a, f) + Collect(b, f)
    decreases |a|
  {
    if a == [] {
      assert a + b == b;
    } else {
      assert (a + b)[0] == a[0] && (a + b)[1..] == a[1..] + b;
      CollectConcat(a[1..], b, f);
      Grouped(f(a[0]), Collect(a[1..], f), Collect(b, f));
    }
  }

  lemma CollectPair<T, U>(a: T, b: T, f: T -> seq<U>)
    ensures Collect([a, b], f) == f(a) + f(b)
  {
    assert [a, b][1..] == [b] && [b][1..] == [];
    assert Collect([b], f) == f(b) + [];
  }

  // The texts given to one field, in order.
  function Given(name: string): Field -> seq<string> {
    (f: Field) => if Canonical(f.name) == Canonical(name) then [f.value.text] else []
  }

  function TextsOf(fs: seq<Field>, name: string): seq<string> { Collect(fs, Given(name)) }

  predicate NoneRefused(fs: seq<Field>) { forall i :: 0 <= i < |fs| ==> !Refused(fs[i].name, fs[i].value) }

  // Field by field, res.set is SetValues; and it goes through exactly when nothing
  // is refused.
  lemma {:induction false} SetFieldsByName(h: Header, fs: seq<Field>, name: string)
    ensures SetFields(h, fs).1 <==> NoneRefused(fs)
    ensures NoneRefused(fs) ==> Values(SetFields(h, fs).0, name) == SetValues(Values(h, name), TextsOf(fs, name))
    decreases |fs|
  {
    if fs != [] {
      match SetField(h, fs[0].name, fs[0].value) {
        case None =>
        case Some(h') =>
          SetFieldsByName(h', fs[1..], name);
          assert NoneRefused(fs) <==> NoneRefused(fs[1..]);
          var texts := TextsOf(fs, name);
          if Canonical(fs[0].name) == Canonical(name) {
            assert texts[0] == fs[0].value.text && texts[1..] == TextsOf(fs[1..], name);
          } else {
            assert texts == TextsOf(fs[1..], name);
          }
      }
    }
  }

  lemma SetFieldsEach(h: Header, fs: seq<Field>)
    ensures SetFields(h, fs).1 <==> NoneRefused(fs)
    ensures NoneRefused(fs) ==> forall n :: Values(SetFields(h, fs).0, n) == SetValues(Values(h, n), TextsOf(fs, n))
  {
    SetFieldsByName(h, fs, "");
    forall n | NoneRefused(fs) ensures Values(SetFields(h, fs).0, n) == SetValues(Values(h, n), TextsOf(fs, n)) {
      SetFieldsByName(h, fs, n);
    }
  }

  // What a header set from nothing holds of each name: the texts given to it from the
  // first that is not empty on, or the last one if all are; and Get reads the first.
  lemma SetFromNothing(fs: seq<Field>, name: string)
    requires NoneRefused(fs)
    ensures var h, ts := SetFields(map[], fs).0, TextsOf(fs, name); var k := FirstFilled(ts);
      && (Canonical(name) in h <==> exists i :: 0 <= i < |fs| && Canonical(fs[i].name) == Canonical(name))
      && (Canonical(name) in h ==> ts != [] && h[Canonical(name)] == if k < |ts| then ts[k..] else [ts[|ts| - 1]])
      && Get(h, name) == if k < |ts| then ts[k] else ""
  {
    var h, ts := SetFields(map[], fs).0, TextsOf(fs, name);
    SetFieldsByName(map[], fs, name);
    SetFieldsCanonical(map[], fs);
    TextsGiven(fs, name);
    if ts != [] { SetLeavesSuffix([], ts); }
  }

  lemma {:induction false} TextsGiven(fs: seq<Field>, name: string)
    ensures TextsOf(fs, name) != [] <==> exists i :: 0 <= i < |fs| && Canonical(fs[i].name) == Canonical(name)
  {
    if fs != [] {
      TextsGiven(fs[1..], name);
      if i :| 0 <= i < |fs| && Canonical(fs[i].name) == Canonical(name) {
        if i > 0 { assert fs[1..][i - 1] == fs[i]; }
      }
    }
  }

  // The object form.

  // All texts given to one field, under whatever spellings, are the same.
  predicate OneTextEach(fs: seq<Field>) {
    forall i, j :: 0 <= i < j < |fs| && Canonical(fs[i].name) == Canonical(fs[j].name) ==>
        fs[i].value.text == fs[j].value.text
  }

  lemma TextsConcat(fs: seq<Field>, gs: seq<Field>, name: string)
    ensures TextsOf(fs + gs, name) == TextsOf(fs, name) + TextsOf(gs, name)
  {
    CollectConcat(fs, gs, Given(name));
  }

  function Without(fs: seq<Field>, j: nat): seq<Field>
    requires j < |fs|
  {
    fs[..j] + fs[j + 1..]
  }

  lemma WithoutIsLess(fs: seq<Field>, j: nat)
    requires j < |fs|
    ensures multiset(Without(fs, j)) == multiset(fs) - multiset{fs[j]}
  {
    assert fs == fs[..j] + [fs[j]] + fs[j + 1..];
  }

  lemma TextsWithout(fs: seq<Field>, j: nat, name: string)
    requires j < |fs|
    ensures multiset(TextsOf(fs, name)) == multiset(TextsOf([fs[j]], name)) + multiset(TextsOf(Without(fs, j), name))
  {
    assert fs == fs[..j] + ([fs[j]] + fs[j + 1..]);
    TextsConcat(fs[..j], [fs[j]] + fs[j + 1..], name);
    TextsConcat([fs[j]], fs[j + 1..], name);
    TextsConcat(fs[..j], fs[j + 1..], name);
  }

  // The order of the fields only orders the texts.
  lemma {:induction false} TextsPermute(fs: seq<Field>, gs: seq<Field>, name: string)
    requires multiset(fs) == multiset(gs)
    ensures multiset(TextsOf(fs, name)) == multiset(TextsOf(gs, name))
    decreases |fs|
  {
    if fs == [] {
      assert |multiset(gs)| == |gs|;
    } else {
      assert fs[0] in multiset(gs);
      var j :| 0 <= j < |gs| && gs[j] == fs[0];
      WithoutIsLess(fs, 0);
      WithoutIsLess(gs, j);
      TextsPermute(Without(fs, 0), Without(gs, j), name);
      TextsWithout(fs, 0, name);
      TextsWithout(gs, j, name);
    }
  }

  lemma {:induction false} TextGiven(fs: seq<Field>, name: string, k: nat) returns (i: nat)
    requires k < |TextsOf(fs, name)|
    ensures i < |fs| && Canonical(fs[i].name) == Canonical(name) && fs[i].value.text == TextsOf(fs, name)[k]
  {
    if Canonical(fs[0].name) == Canonical(name) {
      if k == 0 { return 0; }
      i := TextGiven(fs[1..], name, k - 1);
    } else {
      i := TextGiven(fs[1..], name, k);
    }
    i := i + 1;
  }

  lemma SameTexts(fs: seq<Field>, gs: seq<Field>, name: string)
    requires OneTextEach(fs) && multiset(fs) == multiset(gs)
    ensures TextsOf(fs, name) == TextsOf(gs, name)
  {
    var a, b := TextsOf(fs, name), TextsOf(gs, name);
    TextsPermute(fs, gs, name);
    assert |multiset(a)| == |a| && |multiset(b)| == |b|;
    forall k | 0 <= k < |a| ensures a[k] == b[k] {
      assert b[k] in multiset(a);
      var l :| 0 <= l < |a| && a[l] == b[k];
      OneText(fs, name, k, l);
    }
  }

  lemma OneText(fs: seq<Field>, name: string, k: nat, l: nat)
    requires OneTextEach(fs) && k < |TextsOf(fs, name)| && l < |TextsOf(fs, name)|
    ensures TextsOf(fs, name)[k] == TextsOf(fs, name)[l]
  {
    var i := TextGiven(fs, name, k);
    var j := TextGiven(fs, name, l);
  }

  // A header whose names are all canonical.
  predicate AllCanonical(h: Header) { forall k :: k in h ==> Canonical(k) == k && h[k] != [] }

  lemma {:induction false} SetFieldsCanonical(h: Header, fs: seq<Field>)
    requires AllCanonical(h)
    ensures AllCanonical(SetFields(h, fs).0)
    decreases |fs|
  {
    if fs != [] {
      CanonicalTwice(fs[0].name);
      match SetField(h, fs[0].name, fs[0].value) {
        case None =>
        case Some(h') => SetFieldsCanonical(h', fs[1..]);
      }
    }
  }

  lemma SameValuesSameHeader(h: Header, g: Header)
    requires AllCanonical(h) && AllCanonical(g) && forall name :: Values(h, name) == Values(g, name)
    ensures h == g
  {
    forall k ensures k in h <==> k in g {
      assert Values(h, k) == Values(g, k);
    }
    forall k | k in h ensures h[k] == g[k] {
      assert Values(h, k) == Values(g, k);
    }
  }

  // The object form gives the same header, or is refused, whatever order the map is
  // read in, when no field is given two texts.
  lemma ObjectFormAnyOrder(h: Header, fs: seq<Field>, gs: seq<Field>)
    requires AllCanonical(h) && OneTextEach(fs) && multiset(fs) == multiset(gs)
    ensures SetFields(h, fs).1 == SetFields(h, gs).1
    ensures SetFields(h, fs).1 ==> SetFields(h, fs).0 == SetFields(h, gs).0
  {
    SetFieldsByName(h, fs, "");
    SetFieldsByName(h, gs, "");
    if NoneRefused(gs) { SameRefusals(fs, gs); }
    if NoneRefused(fs) {
      SameRefusals(gs, fs);
      SameHeaders(h, fs, gs);
    }
  }

  lemma SameHeaders(h: Header, fs: seq<Field>, gs: seq<Field>)
    requires AllCanonical(h) && OneTextEach(fs) && multiset(fs) == multiset(gs)
    requires NoneRefused(fs) && NoneRefused(gs)
    ensures SetFields(h, fs).0 == SetFields(h, gs).0
  {
    forall name ensures Values(SetFields(h, fs).0, name) == Values(SetFields(h, gs).0, name) {
      SetFieldsByName(h, fs, name);
      SetFieldsByName(h, gs, name);
      SameTexts(fs, gs, name);
    }
    SetFieldsCanonical(h, fs);
    SetFieldsCanonical(h, gs);
    SameValuesSameHeader(SetFields(h, fs).0, SetFields(h, gs).0);
  }

  lemma SameRefusals(fs: seq<Field>, gs: seq<Field>)
    requires multiset(fs) == multiset(gs) && NoneRefused(gs)
    ensures NoneRefused(fs)
  {
    forall i | 0 <= i < |fs| ensures !Refused(fs[i].name, fs[i].value) {
      assert fs[i] in multiset(gs);
      assert fs[i] in gs;
    }
  }

  // Two different values set first show in which order they were set.
  lemma OrderShows(was: seq<string>, v: string, w: string, rest: seq<string>)
    requires v != w
    ensures SetValues(was, [v, w] + rest) != SetValues(was, [w, v] + rest)
  {
    var a, b := [v, w] + rest, [w, v] + rest;
    if was != [] && was[0] != "" {
      AppendsAll(was, a);
      AppendsAll(was, b);
      assert (was + a)[|was|] == v && (was + b)[|was|] == w;
    } else {
      SetLeavesSuffix(was, a);
      SetLeavesSuffix(was, b);
      assert a[0] == v && a[1] == w && b[0] == w && b[1] == v;
      FilledSecond(a);
      FilledSecond(b);
    }
  }

  lemma FilledSecond(vs: seq<string>)
    requires |vs| >= 2 && (vs[0] != "" || vs[1] != "")
    ensures FirstFilled(vs) == if vs[0] != "" then 0 else 1
  {
    assert vs[1..][0] == vs[1];
  }

  // The fields with those at i and j first.
  lemma PutFirst(fs: seq<Field>, i: nat, j: nat) returns (rest: seq<Field>)
    requires i < j < |fs|
    ensures multiset([fs[i], fs[j]] + rest) == multiset([fs[j], fs[i]] + rest) == multiset(fs)
  {
    rest := fs[..i] + fs[i + 1..j] + fs[j + 1..];
    assert fs == fs[..i] + [fs[i]] + fs[i + 1..j] + [fs[j]] + fs[j + 1..];
    assert [fs[i], fs[j]] == [fs[i]] + [fs[j]] && [fs[j], fs[i]] == [fs[j]] + [fs[i]];
  }

  lemma TextsOfPair(a: Field, b: Field, rest: seq<Field>, name: string)
    requires Canonical(a.name) == Canonical(name) && Canonical(b.name) == Canonical(name)
    ensures TextsOf([a, b] + rest, name) == [a.value.text, b.value.text] + TextsOf(rest, name)
  {
    CollectConcat([a, b], rest, Given(name));
    CollectPair(a, b, Given(name));
    assert [a.value.text] + [b.value.text] == [a.value.text, b.value.text];
  }

  predicate AnyOrder(h: Header, fs: seq<Field>, gs: seq<Field>) {
    multiset(gs) == multiset(fs) ==> SetFields(h, gs).0 == SetFields(h, fs).0
  }

  // With nothing refused, every order in which the map can be read leaves the same
  // header exactly when no field is given two texts.
  lemma OrderMattersExactly(h: Header, fs: seq<Field>)
    requires AllCanonical(h) && NoneRefused(fs)
    ensures (forall gs :: AnyOrder(h, fs, gs)) <==> OneTextEach(fs)
  {
    if OneTextEach(fs) {
      forall gs ensures AnyOrder(h, fs, gs) {
        if multiset(gs) == multiset(fs) {
          SetFieldsByName(h, fs, "");
          ObjectFormAnyOrder(h, fs, gs);
        }
      }
    } else {
      var i, j :| 0 <= i < j < |fs| && Canonical(fs[i].name) == Canonical(fs[j].name) &&
          fs[i].value.text != fs[j].value.text;
      TwoOrders(h, fs, i, j);
    }
  }

  lemma TwoOrders(h: Header, fs: seq<Field>, i: nat, j: nat)
    requires NoneRefused(fs) && i < j < |fs|
    requires Canonical(fs[i].name) == Canonical(fs[j].name) && fs[i].value.text != fs[j].value.text
    ensures exists gs :: !AnyOrder(h, fs, gs)
  {
    var rest := PutFirst(fs, i, j);
    var a, b, name := [fs[i], fs[j]] + rest, [fs[j], fs[i]] + rest, fs[i].name;
    SameRefusals(a, fs);
    SameRefusals(b, fs);
    SetFieldsByName(h, a, name);
    SetFieldsByName(h, b, name);
    TextsOfPair(fs[i], fs[j], rest, name);
    TextsOfPair(fs[j], fs[i], rest, name);
    OrderShows(Values(h, name), fs[i].value.text, fs[j].value.text, TextsOf(rest, name));
    assert !AnyOrder(h, fs, a) || !AnyOrder(h, fs, b);
  }
}
