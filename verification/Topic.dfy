/** Topic filters (section 4.7 of MQTT 3.1.1): validation, matching, and matching as filter subsumption. */
module Topic {
  import opened Common

  type Levels = seq<string>

  predicate HasWildcards(s: string) {
    '+' in s || '#' in s
  }

  predicate ValidTopic(topic: string) {
    !HasWildcards(topic)
  }

  // ---- Levels ----

  /** `str::split('/')`: always at least one level. */
  function Split(s: string): (r: Levels)
    ensures |r| >= 1
  {
    if s == "" then [""]
    else
      var rest := Split(s[1..]);
      if s[0] == '/' then [""] + rest else [[s[0]] + rest[0]] + rest[1..]
  }

  function Join(ls: Levels): string
    requires |ls| >= 1
  {
    if |ls| == 1 then ls[0] else ls[0] + "/" + Join(ls[1..])
  }

  predicate SlashFree(ls: Levels) {
    forall i :: 0 <= i < |ls| ==> '/' !in ls[i]
  }

  lemma {:induction false} SplitSlashFree(s: string)
    ensures SlashFree(Split(s))
  {
    if s != "" {
      SplitSlashFree(s[1..]);
    }
  }

  lemma {:induction false} JoinSplit(s: string)
    ensures Join(Split(s)) == s
  {
    if s != "" {
      JoinSplit(s[1..]);
      var rest := Split(s[1..]);
      if s[0] == '/' {
        assert Split(s)[1..] == rest;
        assert s == "" + "/" + s[1..];
      } else {
        assert Split(s)[1..] == rest[1..];
        JoinFirst(s[0], rest);
        assert s == [s[0]] + s[1..];
      }
    }
  }

  lemma JoinFirst(c: char, ls: Levels)
    requires |ls| >= 1
    ensures Join([[c] + ls[0]] + ls[1..]) == [c] + Join(ls)
  {
    var more := [[c] + ls[0]] + ls[1..];
    if |ls| > 1 {
      assert more[1..] == ls[1..] && more[0] == [c] + ls[0];
      Reassociate([c], ls[0], "/");
      Reassociate([c], ls[0] + "/", Join(ls[1..]));
    }
  }

  lemma {:induction false} SplitPrefix(l: string, rest: string)
    requires '/' !in l
    ensures Split(l + "/" + rest) == [l] + Split(rest)
  {
    var s := l + "/" + rest;
    if l == "" {
      assert s == "/" + rest;
      assert s[1..] == rest;
    } else {
      assert s[1..] == l[1..] + "/" + rest;
      SplitPrefix(l[1..], rest);
      assert [l[0]] + l[1..] == l;
    }
  }

  lemma {:induction false} SplitSingle(l: string)
    requires '/' !in l
    ensures Split(l) == [l]
  {
    if l != "" {
      SplitSingle(l[1..]);
      assert [l[0]] + l[1..] == l;
    }
  }

  lemma {:induction false} SplitJoin(ls: Levels)
    requires |ls| >= 1 && SlashFree(ls)
    ensures Split(Join(ls)) == ls
  {
    if |ls| == 1 {
      SplitSingle(ls[0]);
    } else {
      SplitJoin(ls[1..]);
      SplitPrefix(ls[0], Join(ls[1..]));
    }
  }

  // ---- Validation ----

  /** Wildcards stand alone in their level, and `#` only in the last. */
  predicate WellPlaced(ls: Levels) {
    forall i :: 0 <= i < |ls| ==>
      && ('#' in ls[i] ==> ls[i] == "#" && i == |ls| - 1)
      && ('+' in ls[i] ==> ls[i] == "+")
  }

  lemma SingleCharacter(l: string, c: char)
    ensures c in l && |l| == 1 <==> l == [c]
  {
  }

  method ValidFilter(filter: string) returns (valid: bool)
    ensures valid <==> filter != "" && WellPlaced(Split(filter))
  {
    if filter == "" {
      return false;
    }
    var ls := Split(filter);
    var last := ls[|ls| - 1];
    SingleCharacter(last, '#');
    SingleCharacter(last, '+');
    if |last| != 1 && ('#' in last || '+' in last) {
      assert !WellPlaced(ls);
      return false;
    }
    var i := |ls| - 1;
    while i > 0
      invariant 0 <= i < |ls|
      invariant forall k :: i <= k < |ls| - 1 ==> '#' !in ls[k] && ('+' in ls[k] ==> ls[k] == "+")
    {
      i := i - 1;
      var entry := ls[i];
      SingleCharacter(entry, '+');
      if '#' in entry {
        return false;
      }
      if |entry| > 1 && '+' in entry {
        return false;
      }
    }
    return true;
  }

  // ---- Matching ----

  /** Level by level: `#` ends the comparison, `+` accepts any one level, and a `#` in the topic is never accepted. */
  predicate MatchLevels(t: Levels, f: Levels) {
    if f == [] then t == []
    else if f[0] == "#" then true
    else t != [] && t[0] != "#" && (f[0] == "+" || f[0] == t[0]) && MatchLevels(t[1..], f[1..])
  }

  predicate Reserved(topic: string) {
    topic != "" && topic[0] == '$'
  }

  predicate Matches(topic: string, filter: string) {
    !Reserved(topic) && MatchLevels(Split(topic), Split(filter))
  }

  method MatchTopic(topic: string, filter: string) returns (matched: bool)
    ensures matched <==> Matches(topic, filter)
  {
    if topic != "" && topic[0] == '$' {
      return false;
    }
    var topics := Split(topic);
    var fs := Split(filter);
    var next := 0;
    for i := 0 to |fs|
      invariant next == i <= |topics|
      invariant MatchLevels(topics, fs) <==> MatchLevels(topics[i..], fs[i..])
    {
      if fs[i] == "#" {
        return true;
      }
      if next == |topics| || topics[next] == "#" {
        return false;
      }
      if fs[i] != "+" && fs[i] != topics[next] {
        return false;
      }
      assert topics[i..][1..] == topics[i + 1..] && fs[i..][1..] == fs[i + 1..];
      next := next + 1;
    }
    return next == |topics|;
  }

  /** The position of the first `#` level, or the number of levels. */
  function HashAt(f: Levels): (h: nat)
    ensures h <= |f|
    ensures h < |f| ==> f[h] == "#"
    ensures forall i :: 0 <= i < h ==> f[i] != "#"
  {
    if f == [] || f[0] == "#" then 0 else 1 + HashAt(f[1..])
  }

  /** Matching without recursion: agree on every level before the first `#`, and in length if there is none. */
  lemma {:induction false} MatchMeaning(t: Levels, f: Levels)
    ensures MatchLevels(t, f) <==>
              var h := HashAt(f);
              && (if h < |f| then |t| >= h else |t| == h)
              && forall i :: 0 <= i < h ==> t[i] != "#" && (f[i] == "+" || f[i] == t[i])
  {
    if f != [] && f[0] != "#" && t != [] {
      MatchMeaning(t[1..], f[1..]);
      var h := HashAt(f);
      assert forall i :: 1 <= i < h && i < |t| ==> t[i] == t[1..][i - 1] && f[i] == f[1..][i - 1];
      assert forall i :: 0 <= i < h - 1 && i < |t| - 1 ==> t[1..][i] == t[i + 1] && f[1..][i] == f[i + 1];
    }
  }

  lemma {:induction false} MatchReflexive(f: Levels)
    ensures MatchLevels(f, f)
  {
    if f != [] {
      MatchReflexive(f[1..]);
    }
  }

  lemma {:induction false} MatchTransitive(a: Levels, b: Levels, c: Levels)
    requires MatchLevels(a, b) && MatchLevels(b, c)
    ensures MatchLevels(a, c)
  {
    if c != [] && c[0] != "#" {
      MatchTransitive(a[1..], b[1..], c[1..]);
    }
  }

  /** Matching is a preorder: reflexive outside the reserved names, transitive everywhere. */
  lemma MatchesIsPreorder(a: string, b: string, c: string)
    ensures Matches(a, a) <==> !Reserved(a)
    ensures Matches(a, b) && Matches(b, c) ==> Matches(a, c)
  {
    MatchReflexive(Split(a));
    if Matches(a, b) && Matches(b, c) {
      MatchTransitive(Split(a), Split(b), Split(c));
    }
  }

  // ---- Subsumption, exactly ----

  /** Every topic that `narrow` matches, `wide` matches too. */
  ghost predicate Covers(wide: string, narrow: string) {
    forall t: string :: ValidTopic(t) && Matches(t, narrow) ==> Matches(t, wide)
  }

  predicate IsFilter(f: string) {
    f != "" && WellPlaced(Split(f))
  }

  function Fresh(n: nat): (s: string)
    ensures |s| == n && forall c :: c in s ==> c == 'a'
  {
    if n == 0 then "" else "a" + Fresh(n - 1)
  }

  function Longest(ls: Levels): (n: nat)
    ensures forall l :: l in ls ==> |l| <= n
  {
    if ls == [] then 0
    else
      var rest := Longest(ls[1..]);
      if |ls[0]| > rest then |ls[0]| else rest
  }

  /** A level that occurs nowhere in `ls`, is no wildcard, and does not start with `$`. */
  function NewLevel(ls: Levels): (x: string)
    ensures x !in ls && x != "" && '/' !in x && '+' !in x && '#' !in x && x[0] == 'a'
  {
    Fresh(Longest(ls) + 1)
  }

  /** The filter with `x` in place of every `+`. */
  function Instance(p: Levels, x: string): (t: Levels)
    ensures |t| == |p| && forall i :: 0 <= i < |p| ==> t[i] == if p[i] == "+" then x else p[i]
  {
    seq(|p|, i requires 0 <= i < |p| => if p[i] == "+" then x else p[i])
  }

  function Repeat(x: string, k: nat): (r: Levels)
    ensures |r| == k && forall i :: 0 <= i < k ==> r[i] == x
  {
    seq(k, i => x)
  }

  predicate Literal(ls: Levels) {
    forall i :: 0 <= i < |ls| ==> '/' !in ls[i] && '+' !in ls[i] && '#' !in ls[i]
  }

  lemma {:induction false} JoinIsTopic(ls: Levels)
    requires |ls| >= 1 && Literal(ls)
    ensures ValidTopic(Join(ls))
    ensures Reserved(Join(ls)) ==> Reserved(ls[0])
  {
    if |ls| > 1 {
      JoinIsTopic(ls[1..]);
    }
  }

  lemma ReservedIsFirstLevel(s: string)
    ensures Reserved(s) <==> Reserved(Split(s)[0])
  {
  }

  /** A covered filter's instances are matched by the covering filter. */
  lemma CoveredInstance(wide: string, narrow: string, t: Levels)
    requires Covers(wide, narrow) && |t| >= 1 && Literal(t) && !Reserved(t[0])
    requires MatchLevels(t, Split(narrow))
    ensures MatchLevels(t, Split(wide))
  {
    SplitJoin(t);
    JoinIsTopic(t);
    assert Matches(Join(t), narrow);
  }

  /** The part of a valid filter before its `#`. */
  function Stem(f: Levels): Levels {
    f[..HashAt(f)]
  }

  lemma StemLevels(narrow: string, x: string, k: nat)
    requires IsFilter(narrow) && '/' !in x && '+' !in x && '#' !in x
    requires k == 0 || HashAt(Split(narrow)) < |Split(narrow)|
    ensures Literal(Instance(Stem(Split(narrow)), x) + Repeat(x, k))
    ensures MatchLevels(Instance(Stem(Split(narrow)), x) + Repeat(x, k), Split(narrow))
  {
    var f := Split(narrow);
    var h := HashAt(f);
    var t := Instance(Stem(f), x) + Repeat(x, k);
    SplitSlashFree(narrow);
    assert forall i :: 0 <= i < h ==> Stem(f)[i] == f[i] && t[i] == if f[i] == "+" then x else f[i];
    assert forall i :: h <= i < |t| ==> t[i] == x;
    forall i | 0 <= i < |t|
      ensures '/' !in t[i] && '+' !in t[i] && '#' !in t[i]
    {
      if i < h && f[i] != "+" {
        assert '#' !in f[i] && '+' !in f[i];
      }
    }
    MatchMeaning(t, f);
  }

  /** A level that the fresh instance agrees on, the pattern agrees on. */
  lemma InstanceReflects(p: Levels, f: Levels, x: string, t: Levels, n: nat)
    requires x !in f && n <= |p| && n <= |t| && n <= HashAt(f)
    requires forall i :: 0 <= i < n ==> t[i] == (if p[i] == "+" then x else p[i])
    requires MatchLevels(t, f)
    ensures forall i :: 0 <= i < n ==> f[i] == "+" || f[i] == p[i]
  {
    MatchMeaning(t, f);
    forall i | 0 <= i < n
      ensures f[i] == "+" || f[i] == p[i]
    {
      assert f[i] in f;
    }
  }

  lemma PlainFilterCovered(wide: string, narrow: string)
    requires IsFilter(narrow) && IsFilter(wide) && !Reserved(narrow) && Covers(wide, narrow)
    requires HashAt(Split(narrow)) == |Split(narrow)|
    ensures MatchLevels(Split(narrow), Split(wide))
  {
    var p, f := Split(narrow), Split(wide);
    var x := NewLevel(f);
    var t := Instance(Stem(p), x) + Repeat(x, 0);
    StemLevels(narrow, x, 0);
    ReservedIsFirstLevel(narrow);
    assert Stem(p) == p && t == Instance(p, x);
    CoveredInstance(wide, narrow, t);
    MatchMeaning(t, f);
    InstanceReflects(p, f, x, t, HashAt(f));
    MatchMeaning(p, f);
  }

  /** A covering filter of `stem/#` ends in `#` too, after no more levels than any instance has. */
  lemma HashFilterCovered(wide: string, narrow: string)
    requires IsFilter(narrow) && IsFilter(wide) && !Reserved(narrow) && Covers(wide, narrow)
    requires HashAt(Split(narrow)) < |Split(narrow)|
    ensures MatchLevels(Split(narrow), Split(wide)) || (narrow == "#" && wide == "+/#")
  {
    var p, f := Split(narrow), Split(wide);
    var h := HashAt(p);
    var x := NewLevel(f);
    ReservedIsFirstLevel(narrow);
    LongInstance(wide, narrow, x);
    var k := if h == 0 then 1 else 0;
    var t := Instance(Stem(p), x) + Repeat(x, k);
    StemLevels(narrow, x, k);
    assert forall i :: 0 <= i < h ==> t[i] == if p[i] == "+" then x else p[i];
    assert !Reserved(t[0]);
    CoveredInstance(wide, narrow, t);
    MatchMeaning(t, f);
    assert HashAt(f) <= h + k;
    if HashAt(f) <= h {
      InstanceReflects(p, f, x, t, HashAt(f));
      MatchMeaning(p, f);
    } else {
      assert f[0] in f && t[0] == x;
      HashOnly(narrow);
      PlusHash(wide);
    }
  }

  lemma LongInstance(wide: string, narrow: string, x: string)
    requires IsFilter(narrow) && IsFilter(wide) && Covers(wide, narrow)
    requires HashAt(Split(narrow)) < |Split(narrow)| && !Reserved(Split(narrow)[0])
    requires x == NewLevel(Split(wide))
    ensures HashAt(Split(wide)) < |Split(wide)|
  {
    var p, f := Split(narrow), Split(wide);
    var t := Instance(Stem(p), x) + Repeat(x, |f| + 1);
    StemLevels(narrow, x, |f| + 1);
    assert t[0] == if HashAt(p) > 0 && p[0] != "+" then p[0] else x;
    CoveredInstance(wide, narrow, t);
    MatchMeaning(t, f);
  }

  lemma HashOnly(f: string)
    requires IsFilter(f) && HashAt(Split(f)) == 0
    ensures f == "#"
  {
    assert '#' in Split(f)[0];
    JoinSplit(f);
  }

  lemma PlusHash(f: string)
    requires IsFilter(f) && HashAt(Split(f)) == 1 < |Split(f)| && Split(f)[0] == "+"
    ensures f == "+/#"
  {
    assert '#' in Split(f)[1];
    assert |Split(f)| == 2;
    JoinSplit(f);
    assert Split(f)[1..] == ["#"];
  }

  lemma PlusHashCoversHash()
    ensures Covers("+/#", "#")
  {
    SplitPrefix("+", "#");
    SplitSingle("#");
    assert "+/#" == "+" + "/" + "#";
    assert Split("+/#") == ["+", "#"];
    forall t: string | ValidTopic(t) && Matches(t, "#")
      ensures Matches(t, "+/#")
    {
      JoinSplit(t);
      if Split(t)[0] == "#" {
        FirstLevelIn(t);
      }
      MatchMeaning(Split(t), ["+", "#"]);
      assert HashAt(["+", "#"][1..]) == 0;
    }
  }

  lemma FirstLevelIn(t: string)
    ensures forall c :: c in Split(t)[0] ==> c in t
  {
    var first := Split(t)[0];
    if t != "" && t[0] != '/' {
      FirstLevelIn(t[1..]);
      assert first == [t[0]] + Split(t[1..])[0];
      assert forall c :: c in t[1..] ==> c in t;
    }
  }

  lemma NothingMatchesReserved(filter: string, t: string)
    requires Reserved(filter)
    ensures !Matches(t, filter)
  {
    ReservedIsFirstLevel(filter);
    ReservedIsFirstLevel(t);
  }

  lemma CoveredIsMatched(wide: string, narrow: string)
    requires IsFilter(wide) && IsFilter(narrow) && !Reserved(narrow) && Covers(wide, narrow)
    ensures Matches(narrow, wide) || (narrow == "#" && wide == "+/#")
  {
    if HashAt(Split(narrow)) == |Split(narrow)| {
      PlainFilterCovered(wide, narrow);
    } else {
      HashFilterCovered(wide, narrow);
    }
  }

  lemma HashIsNotMatched()
    ensures !Matches("#", "+/#")
  {
    SplitPrefix("+", "#");
    SplitSingle("#");
    assert "+/#" == "+" + "/" + "#";
  }

  /**
   * Subsumption is decided exactly by matching the filters against each other, with two exceptions:
   * `+/#` covers `#`, because a topic always has a first level, and a filter that starts with `$`
   * is covered by everything, because it matches no topic at all. Matching sees neither.
   */
  lemma SubsumptionExact(wide: string, narrow: string)
    requires IsFilter(wide) && IsFilter(narrow)
    ensures Covers(wide, narrow) <==> Matches(narrow, wide) || (narrow == "#" && wide == "+/#") || Reserved(narrow)
    ensures !Matches("#", "+/#") && (Reserved(narrow) ==> !Matches(narrow, wide))
  {
    if Covers(wide, narrow) && !Reserved(narrow) {
      CoveredIsMatched(wide, narrow);
    }
    forall t: string | ValidTopic(t) && Matches(t, narrow) && (Matches(narrow, wide) || Reserved(narrow))
      ensures Matches(t, wide)
    {
      MatchesIsPreorder(t, narrow, wide);
      if Reserved(narrow) {
        NothingMatchesReserved(narrow, t);
      }
    }
    PlusHashCoversHash();
    HashIsNotMatched();
  }
}
