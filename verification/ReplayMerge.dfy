/** replay_merge_cases.py: merging two lists of replay cases by key, and the renaming pass that gives
    every case a name of its own. */
module ReplayMerge {
  import opened Wrappers

  datatype Case = Case(name: string, protocol: string, origin: string, phase: string, frame: string)

  /** The string library: how it strips and lowers text. */
  datatype Text = Text(strip: string -> string, lower: string -> string)

  // ------------------------------------------------------------- decimal numerals

  function Digit(n: nat): char
    requires n < 10
  {
    "0123456789"[n]
  }

  function Decimal(n: nat): (s: string)
    ensures s != []
  {
    if n < 10 then [Digit(n)] else Decimal(n / 10) + [Digit(n % 10)]
  }

  /** The number a string of decimal digits stands for. */
  function Value(s: string): int {
    if s == "" then 0 else 10 * Value(s[..|s| - 1]) + (s[|s| - 1] as int - '0' as int)
  }

  /** A numeral stands for its number, in digits, with no zero in front. */
  lemma {:induction false} DecimalReads(n: nat)
    ensures Value(Decimal(n)) == n
    ensures forall i :: 0 <= i < |Decimal(n)| ==> '0' <= Decimal(n)[i] <= '9'
    ensures n > 0 ==> Decimal(n)[0] != '0'
    decreases n
  {
    var s := Decimal(n);
    assert Digit(n % 10) as int == '0' as int + n % 10;
    if n >= 10 {
      DecimalReads(n / 10);
      assert s[..|s| - 1] == Decimal(n / 10) && s[|s| - 1] == Digit(n % 10);
    } else {
      assert s[..0] == "" && s[0] == Digit(n);
    }
  }

  lemma DecimalInjective(m: nat, n: nat)
    requires Decimal(m) == Decimal(n)
    ensures m == n
  {
    DecimalReads(m);
    DecimalReads(n);
  }

  function Zeros(n: nat): string {
    seq(n, _ => '0')
  }

  /** A numeral padded with zeros to eight digits. */
  function Padded(n: nat): string {
    var s := Decimal(n);
    if |s| < 8 then Zeros(8 - |s|) + s else s
  }

  lemma {:induction false} ZerosAddNothing(n: nat, s: string)
    ensures Value(Zeros(n) + s) == Value(s)
    decreases |s|, n
  {
    var all := Zeros(n) + s;
    if s != "" {
      assert all[..|all| - 1] == Zeros(n) + s[..|s| - 1];
      ZerosAddNothing(n, s[..|s| - 1]);
    } else if n > 0 {
      assert all[..|all| - 1] == Zeros(n - 1) + "";
      ZerosAddNothing(n - 1, "");
    }
  }

  /** A padded numeral stands for its number too, in eight digits if they are enough. */
  lemma {:induction false} PaddedReads(n: nat)
    ensures Value(Padded(n)) == n && |Padded(n)| == Max(8, |Decimal(n)|)
    ensures forall i :: 0 <= i < |Padded(n)| ==> '0' <= Padded(n)[i] <= '9'
  {
    DecimalReads(n);
    if |Decimal(n)| < 8 {
      ZerosAddNothing(8 - |Decimal(n)|, Decimal(n));
    }
  }

  // -------------------------------------------------------------- candidate names

  function Base(t: Text, c: Case, index: nat): string {
    if t.strip(c.name) != "" then t.strip(c.name) else "replay_case_" + Padded(index)
  }

  function Tagged(t: Text, c: Case, index: nat): string {
    Base(t, c, index) + "_" + t.lower(t.strip(c.protocol)) + "_" + t.lower(t.strip(c.origin))
  }

  /** The names tried for a case, in order: its own, then one with its protocol and origin, then
      that one numbered from 2. */
  function Candidate(t: Text, c: Case, index: nat, k: nat): string {
    if k == 0 then Base(t, c, index)
    else if k == 1 then Tagged(t, c, index)
    else Tagged(t, c, index) + "_" + Decimal(k)
  }

  lemma CandidatesDiffer(t: Text, c: Case, index: nat, j: nat, k: nat)
    requires j != k
    ensures Candidate(t, c, index, j) != Candidate(t, c, index, k)
  {
    var a, b, tag := Candidate(t, c, index, j), Candidate(t, c, index, k), Tagged(t, c, index);
    if a == b {
      if j >= 2 && k >= 2 {
        assert a[|tag| + 1..] == Decimal(j) && b[|tag| + 1..] == Decimal(k);
        DecimalInjective(j, k);
      }
    }
  }

  /** The first candidate not yet taken. */
  ghost predicate IsFirstFree(t: Text, c: Case, index: nat, used: set<string>, name: string) {
    exists k :: IsFreeAt(t, c, index, used, name, k)
  }

  ghost predicate IsFreeAt(t: Text, c: Case, index: nat, used: set<string>, name: string, k: nat) {
    && name == Candidate(t, c, index, k) && name !in used
    && forall j :: 0 <= j < k ==> Candidate(t, c, index, j) in used
  }

  function Names(cases: seq<Case>): set<string> {
    set c | c in cases :: c.name
  }

  /** The cases before and after the pass: each name the first one free, all else as it was. */
  ghost predicate IsRenaming(t: Text, before: seq<Case>, after: seq<Case>) {
    && |after| == |before|
    && forall i :: 0 <= i < |after| ==> RenamedAt(t, before, after, i)
  }

  ghost predicate RenamedAt(t: Text, before: seq<Case>, after: seq<Case>, i: nat)
    requires i < |before| && i < |after|
  {
    && IsFirstFree(t, before[i], i, Names(after[..i]), after[i].name)
    && after[i] == before[i].(name := after[i].name)
  }

  /** First-free names are all different. */
  lemma RenamingIsUnique(t: Text, before: seq<Case>, after: seq<Case>, i: nat, j: nat)
    requires IsRenaming(t, before, after) && i < j < |after|
    ensures after[i].name != after[j].name
  {
    assert RenamedAt(t, before, after, j);
    var k :| IsFreeAt(t, before[j], j, Names(after[..j]), after[j].name, k);
    assert after[..j][i] == after[i] && after[i] in after[..j];
  }

  /** What the pass makes of a name: a name of its own, not blank once stripped, stays if no case
      before it has it; a blank one becomes "replay_case_" and the case's index. A name that is taken
      is followed by protocol and origin, and if that is taken too by the first free number from 2. */
  lemma RenamedTo(t: Text, before: seq<Case>, after: seq<Case>, i: nat)
    requires IsRenaming(t, before, after) && i < |after|
    ensures var own, used := t.strip(before[i].name), Names(after[..i]);
            var base := if own == "" then "replay_case_" + Padded(i) else own;
            var tagged := base + "_" + t.lower(t.strip(before[i].protocol)) + "_" + t.lower(t.strip(before[i].origin));
            if base !in used then after[i].name == base
            else if tagged !in used then after[i].name == tagged
            else exists n :: NumberedFrom2(tagged, used, after[i].name, n)
  {
    var own, used := t.strip(before[i].name), Names(after[..i]);
    assert RenamedAt(t, before, after, i);
    var k: nat :| IsFreeAt(t, before[i], i, used, after[i].name, k);
    assert k > 0 ==> Candidate(t, before[i], i, 0) in used;
    assert k > 1 ==> Candidate(t, before[i], i, 1) in used;
    if k > 1 {
      var tagged := Tagged(t, before[i], i);
      forall m | 2 <= m < k
        ensures tagged + "_" + Decimal(m) in used
      {
        assert Candidate(t, before[i], i, m) in used;
      }
      assert NumberedFrom2(tagged, used, after[i].name, k);
    }
  }

  /** The name is numbered with the first number from 2 on that makes it free. */
  ghost predicate NumberedFrom2(tagged: string, used: set<string>, name: string, n: nat) {
    && n >= 2 && name == tagged + "_" + Decimal(n) && name !in used
    && forall m :: 2 <= m < n ==> tagged + "_" + Decimal(m) in used
  }

  /** How many cases did not keep their own name. */
  function Changed(t: Text, before: seq<Case>, after: seq<Case>): nat
    requires |before| == |after|
    decreases |after|
  {
    if after == [] then 0
    else
      var n := |after| - 1;
      Changed(t, before[..n], after[..n]) + if after[n].name == Base(t, before[n], n) then 0 else 1
  }

  /** The case has another name than its own, or than the one made of its index if its own is blank. */
  predicate IsRenamed(t: Text, before: seq<Case>, after: seq<Case>, i: nat)
    requires i < |before| && i < |after|
  {
    after[i].name != if t.strip(before[i].name) == "" then "replay_case_" + Padded(i) else t.strip(before[i].name)
  }

  ghost function Renamed(t: Text, before: seq<Case>, after: seq<Case>): (flags: seq<bool>)
    requires |before| == |after|
    ensures |flags| == |after| && forall i :: 0 <= i < |after| ==> (flags[i] <==> IsRenamed(t, before, after, i))
  {
    seq(|after|, i requires 0 <= i < |after| => IsRenamed(t, before, after, i))
  }

  /** The places, below n, that are marked. */
  ghost function Marked(flags: seq<bool>, n: nat): set<nat>
    requires n <= |flags|
  {
    set i: nat | i < n && flags[i]
  }

  lemma MarkedOneMore(flags: seq<bool>, n: nat)
    requires n < |flags|
    ensures |Marked(flags, n + 1)| == |Marked(flags, n)| + if flags[n] then 1 else 0
  {
    assert Marked(flags, n + 1) == Marked(flags, n) + if flags[n] then {n} else {};
  }

  /** The number the pass returns is the number of renamed cases. */
  lemma {:induction false} ChangedCounts(t: Text, before: seq<Case>, after: seq<Case>, n: nat)
    requires n <= |before| == |after|
    ensures Changed(t, before[..n], after[..n]) == |Marked(Renamed(t, before, after), n)|
  {
    if n > 0 {
      ChangedCounts(t, before, after, n - 1);
      assert before[..n][..n - 1] == before[..n - 1] && after[..n][..n - 1] == after[..n - 1];
      MarkedOneMore(Renamed(t, before, after), n - 1);
    }
  }

  /** A pass over cases whose names are stripped, not blank and all different changes nothing. */
  lemma {:induction false} DistinctNamesStay(t: Text, before: seq<Case>, after: seq<Case>, i: nat)
    requires IsRenaming(t, before, after) && i <= |before|
    requires forall k :: 0 <= k < |before| ==> t.strip(before[k].name) == before[k].name != ""
    requires forall j, k :: 0 <= j < k < |before| ==> before[j].name != before[k].name
    ensures after[..i] == before[..i]
  {
    if i > 0 {
      var n := i - 1;
      DistinctNamesStay(t, before, after, n);
      assert RenamedAt(t, before, after, n);
      var k :| IsFreeAt(t, before[n], n, Names(after[..n]), after[n].name, k);
      assert Candidate(t, before[n], n, 0) == before[n].name;
      assert forall c :: c in before[..n] ==> c.name != before[n].name;
      assert after[..i] == after[..n] + [after[n]] && before[..i] == before[..n] + [before[n]];
    }
  }

  // -------------------------------------------------------------------- the pass

  /** The suffix loop for one case: ends because each candidate tried is a different used name. */
  method FreeName(t: Text, c: Case, index: nat, used: set<string>) returns (name: string, renamed: bool)
    ensures IsFirstFree(t, c, index, used, name)
    ensures renamed <==> name != Base(t, c, index)
  {
    name := Base(t, c, index);
    renamed := name in used;
    if !renamed {
      assert IsFreeAt(t, c, index, used, name, 0);
      return;
    }
    CandidatesDiffer(t, c, index, 0, 1);
    name := Tagged(t, c, index);
    var number := 2;
    while name in used
      invariant number >= 2 && name == Candidate(t, c, index, number - 1) && name != Base(t, c, index)
      invariant forall j :: 0 <= j < number - 1 ==> Candidate(t, c, index, j) in used
      decreases |used| - number
    {
      CandidatesRunOut(t, c, index, used, number);
      CandidatesDiffer(t, c, index, 0, number);
      name := Tagged(t, c, index) + "_" + Decimal(number);
      number := number + 1;
    }
    assert IsFreeAt(t, c, index, used, name, number - 1);
  }

  lemma {:induction false} CandidatesRunOut(t: Text, c: Case, index: nat, used: set<string>, n: nat)
    requires forall j :: 0 <= j < n ==> Candidate(t, c, index, j) in used
    ensures n <= |used|
    decreases n
  {
    if n > 0 {
      var last := Candidate(t, c, index, n - 1);
      forall j | 0 <= j < n - 1
        ensures Candidate(t, c, index, j) in used - {last}
      {
        CandidatesDiffer(t, c, index, j, n - 1);
      }
      CandidatesRunOut(t, c, index, used - {last}, n - 1);
    }
  }

  /** Renames the cases in place and returns how many it renamed. */
  method EnsureUniqueNames(t: Text, cases: array<Case>) returns (renamed: nat)
    modifies cases
    ensures IsRenaming(t, old(cases[..]), cases[..])
    ensures renamed == Changed(t, old(cases[..]), cases[..])
    ensures forall i, j :: 0 <= i < j < cases.Length ==> cases[i].name != cases[j].name
  {
    ghost var before := cases[..];
    var used: set<string> := {};
    renamed := 0;
    var i := 0;
    while i < cases.Length
      invariant 0 <= i <= cases.Length && |before| == cases.Length
      invariant IsProgress(t, before, cases[..], i, used, renamed)
    {
      ghost var now := cases[..];
      var name, changed := FreeName(t, cases[i], i, used);
      ProgressGrows(t, before, now, i, used, renamed, name);
      cases[i] := cases[i].(name := name);
      assert cases[..] == now[i := now[i].(name := name)];
      used := used + {name};
      if changed {
        renamed := renamed + 1;
      }
      i := i + 1;
    }
    ghost var after := cases[..];
    assert before[..i] == before && after[..i] == after;
    forall j, k | 0 <= j < k < cases.Length
      ensures cases[j].name != cases[k].name
    {
      RenamingIsUnique(t, before, after, j, k);
    }
  }

  /** The pass has dealt with the first i cases. */
  ghost predicate IsProgress(t: Text, before: seq<Case>, now: seq<Case>, i: nat, used: set<string>, renamed: nat) {
    && i <= |before| == |now| && now[i..] == before[i..] && used == Names(now[..i])
    && IsRenaming(t, before[..i], now[..i]) && renamed == Changed(t, before[..i], now[..i])
  }

  lemma ProgressGrows(t: Text, before: seq<Case>, now: seq<Case>, i: nat, used: set<string>, renamed: nat, name: string)
    requires IsProgress(t, before, now, i, used, renamed) && i < |before|
    requires IsFirstFree(t, now[i], i, used, name)
    ensures IsProgress(t, before, now[i := now[i].(name := name)], i + 1, used + {name},
                       renamed + if name == Base(t, now[i], i) then 0 else 1)
  {
    var after := now[i := now[i].(name := name)];
    assert now[i..][0] == before[i..][0];
    RenamingGrows(t, before[..i], now[..i], before[i], after[i]);
    assert before[..i + 1] == before[..i] + [before[i]] && after[..i + 1] == now[..i] + [after[i]];
    assert after[i + 1..] == now[i..][1..] && before[i + 1..] == before[i..][1..];
  }

  lemma RenamingGrows(t: Text, before: seq<Case>, after: seq<Case>, b: Case, a: Case)
    requires IsRenaming(t, before, after)
    requires IsFirstFree(t, b, |before|, Names(after), a.name) && a == b.(name := a.name)
    ensures IsRenaming(t, before + [b], after + [a])
    ensures Names(after + [a]) == Names(after) + {a.name}
    ensures Changed(t, before + [b], after + [a])
         == Changed(t, before, after) + if a.name == Base(t, b, |before|) then 0 else 1
  {
    forall i | 0 <= i < |after + [a]|
      ensures RenamedAt(t, before + [b], after + [a], i)
    {
      assert (after + [a])[..i] == after[..i];
      assert i < |after| ==> RenamedAt(t, before, after, i);
      assert after[..|after|] == after;
    }
    assert (before + [b])[..|before|] == before && (after + [a])[..|after|] == after;
  }

  // ------------------------------------------------------------------- the merge

  type Key = seq<string>

  /** Cases are told apart by name, or by protocol, phase and frame. */
  function KeyOf(c: Case, byName: bool): Key {
    if byName then [c.name] else [c.protocol, c.phase, c.frame]
  }

  /** The last case of a list that has a key. */
  ghost predicate IsLast(cases: seq<Case>, byName: bool, key: Key, c: Case) {
    exists i :: IsLastAt(cases, byName, key, c, i)
  }

  ghost predicate IsLastAt(cases: seq<Case>, byName: bool, key: Key, c: Case, i: nat) {
    && i < |cases| && cases[i] == c && KeyOf(c, byName) == key
    && forall j :: i < j < |cases| ==> KeyOf(cases[j], byName) != key
  }

  /** One entry for each key, the last of its cases. */
  ghost predicate IsMerge(cases: seq<Case>, byName: bool, merged: map<Key, Case>) {
    && (forall c :: c in cases ==> KeyOf(c, byName) in merged)
    && (forall key :: key in merged ==> IsLast(cases, byName, key, merged[key]))
  }

  lemma MergeGrows(cases: seq<Case>, byName: bool, merged: map<Key, Case>, c: Case)
    requires IsMerge(cases, byName, merged)
    ensures IsMerge(cases + [c], byName, merged[KeyOf(c, byName) := c])
  {
    var more := cases + [c];
    assert IsLastAt(more, byName, KeyOf(c, byName), c, |cases|);
    forall key | key in merged && key != KeyOf(c, byName)
      ensures IsLast(more, byName, key, merged[key])
    {
      var i: nat :| IsLastAt(cases, byName, key, merged[key], i);
      assert IsLastAt(more, byName, key, merged[key], i);
    }
  }

  /** The side processed last wins every key it has a case for. */
  lemma LastSideWins(first: seq<Case>, second: seq<Case>, byName: bool, merged: map<Key, Case>, c: Case)
    requires IsMerge(first + second, byName, merged) && c in second
    ensures KeyOf(c, byName) in merged && merged[KeyOf(c, byName)] in second
  {
    var all, key := first + second, KeyOf(c, byName);
    assert c in all;
    var i: nat :| IsLastAt(all, byName, key, merged[key], i);
    var k :| 0 <= k < |second| && second[k] == c;
    assert all[|first| + k] == c;
    assert KeyOf(all[|first| + k], byName) == key;
    assert i >= |first|;
    assert second[i - |first|] == merged[key];
  }

  // What a merge is, in the fields of the cases.

  /** Every case has one kept with its protocol, phase and frame, no two kept agree in all three, and
      each one kept is the last case with its three. */
  ghost predicate KeepsLastByFrame(cases: seq<Case>, kept: set<Case>) {
    && (forall c :: c in cases ==> exists m :: m in kept && m.protocol == c.protocol && m.phase == c.phase && m.frame == c.frame)
    && (forall m, n :: m in kept && n in kept && m.protocol == n.protocol && m.phase == n.phase && m.frame == n.frame ==> m == n)
    && (forall m :: m in kept ==> exists i :: IsLastWithFrame(cases, m, i))
  }

  ghost predicate IsLastWithFrame(cases: seq<Case>, m: Case, i: nat) {
    && i < |cases| && cases[i] == m
    && forall j :: i < j < |cases| ==>
         cases[j].protocol != m.protocol || cases[j].phase != m.phase || cases[j].frame != m.frame
  }

  /** The same with the name alone. */
  ghost predicate KeepsLastByName(cases: seq<Case>, kept: set<Case>) {
    && (forall c :: c in cases ==> exists m :: m in kept && m.name == c.name)
    && (forall m, n :: m in kept && n in kept && m.name == n.name ==> m == n)
    && (forall m :: m in kept ==> exists i :: IsLastWithName(cases, m, i))
  }

  ghost predicate IsLastWithName(cases: seq<Case>, m: Case, i: nat) {
    && i < |cases| && cases[i] == m && forall j :: i < j < |cases| ==> cases[j].name != m.name
  }

  lemma SameFrameKey(a: Case, b: Case)
    ensures KeyOf(a, false) == KeyOf(b, false)
       <==> a.protocol == b.protocol && a.phase == b.phase && a.frame == b.frame
  {
    var k, l := KeyOf(a, false), KeyOf(b, false);
    assert k == l ==> k[0] == l[0] && k[1] == l[1] && k[2] == l[2];
  }

  lemma SameNameKey(a: Case, b: Case)
    ensures KeyOf(a, true) == KeyOf(b, true) <==> a.name == b.name
  {
    var k, l := KeyOf(a, true), KeyOf(b, true);
    assert k == l ==> k[0] == l[0];
  }

  /** Merging by frame: of the cases with the same protocol, phase and frame the last one is kept. */
  lemma MergedByFrame(cases: seq<Case>, merged: map<Key, Case>)
    requires IsMerge(cases, false, merged)
    ensures KeepsLastByFrame(cases, merged.Values)
  {
    forall c | c in cases
      ensures exists m :: m in merged.Values && m.protocol == c.protocol && m.phase == c.phase && m.frame == c.frame
    {
      KeyOfKept(cases, false, merged, KeyOf(c, false));
      SameFrameKey(merged[KeyOf(c, false)], c);
      assert merged[KeyOf(c, false)] in merged.Values;
    }
    forall m, n | m in merged.Values && n in merged.Values && m.protocol == n.protocol && m.phase == n.phase && m.frame == n.frame
      ensures m == n
    {
      KeyOfValue(cases, false, merged, m);
      KeyOfValue(cases, false, merged, n);
    }
    forall m | m in merged.Values
      ensures exists i :: IsLastWithFrame(cases, m, i)
    {
      KeyOfValue(cases, false, merged, m);
      var i: nat :| IsLastAt(cases, false, KeyOf(m, false), m, i);
      assert IsLastWithFrame(cases, m, i);
    }
  }

  /** Merging by name: of the cases with the same name the last one is kept. */
  lemma MergedByName(cases: seq<Case>, merged: map<Key, Case>)
    requires IsMerge(cases, true, merged)
    ensures KeepsLastByName(cases, merged.Values)
  {
    forall c | c in cases
      ensures exists m :: m in merged.Values && m.name == c.name
    {
      KeyOfKept(cases, true, merged, KeyOf(c, true));
      SameNameKey(merged[KeyOf(c, true)], c);
      assert merged[KeyOf(c, true)] in merged.Values;
    }
    forall m, n | m in merged.Values && n in merged.Values && m.name == n.name
      ensures m == n
    {
      KeyOfValue(cases, true, merged, m);
      KeyOfValue(cases, true, merged, n);
    }
    forall m | m in merged.Values
      ensures exists i :: IsLastWithName(cases, m, i)
    {
      KeyOfValue(cases, true, merged, m);
      var i: nat :| IsLastAt(cases, true, KeyOf(m, true), m, i);
      assert IsLastWithName(cases, m, i);
    }
  }

  lemma KeyOfKept(cases: seq<Case>, byName: bool, merged: map<Key, Case>, key: Key)
    requires IsMerge(cases, byName, merged) && key in merged
    ensures KeyOf(merged[key], byName) == key
  {
    var i :| IsLastAt(cases, byName, key, merged[key], i);
  }

  lemma KeyOfValue(cases: seq<Case>, byName: bool, merged: map<Key, Case>, m: Case)
    requires IsMerge(cases, byName, merged) && m in merged.Values
    ensures KeyOf(m, byName) in merged && merged[KeyOf(m, byName)] == m && IsLast(cases, byName, KeyOf(m, byName), m)
  {
    var key :| key in merged && merged[key] == m;
    KeyOfKept(cases, byName, merged, key);
  }

  /** As many cases are kept as there are keys. */
  lemma {:induction false} OneValueEach(cases: seq<Case>, byName: bool, merged: map<Key, Case>)
    requires IsMerge(cases, byName, merged)
    ensures |merged.Values| == |merged|
  {
    forall key, other | key in merged && other in merged && merged[key] == merged[other]
      ensures key == other
    {
      KeyOfKept(cases, byName, merged, key);
      KeyOfKept(cases, byName, merged, other);
    }
    SameSize(merged);
  }

  lemma {:induction false} SameSize(merged: map<Key, Case>)
    requires forall key, other :: key in merged && other in merged && merged[key] == merged[other] ==> key == other
    ensures |merged.Values| == |merged|
    decreases |merged|
  {
    if merged.Keys == {} {
      assert merged.Values == {};
    } else {
      var key := SomeMember(merged.Keys);
      var fewer := merged - {key};
      assert fewer.Keys == merged.Keys - {key};
      forall c | c in merged.Values && c != merged[key]
        ensures c in fewer.Values
      {
        var k :| k in merged && merged[k] == c;
        assert k in fewer && fewer[k] == c;
      }
      assert fewer.Values == merged.Values - {merged[key]};
      SameSize(fewer);
    }
  }

  /** The merging loop over both sides in turn; a case without a name stops it. */
  method MergeInOrder(order: seq<Case>, byName: bool) returns (r: Option<map<Key, Case>>)
    ensures r.Some? <==> forall c :: c in order ==> c.name != ""
    ensures r.Some? ==> IsMerge(order, byName, r.value)
  {
    var merged: map<Key, Case> := map[];
    var i := 0;
    while i < |order|
      invariant 0 <= i <= |order|
      invariant forall j :: 0 <= j < i ==> order[j].name != ""
      invariant IsMerge(order[..i], byName, merged)
    {
      if order[i].name == "" {
        return None;
      }
      MergeGrows(order[..i], byName, merged, order[i]);
      assert order[..i + 1] == order[..i] + [order[i]];
      merged := merged[KeyOf(order[i], byName) := order[i]];
      i := i + 1;
    }
    assert order[..i] == order;
    return Some(merged);
  }

  /** Every key of a side is won by a case of that side. */
  ghost predicate Wins(side: seq<Case>, byName: bool, merged: map<Key, Case>) {
    forall c :: c in side ==> KeyOf(c, byName) in merged && merged[KeyOf(c, byName)] in side
  }

  lemma LastSideWinsAll(first: seq<Case>, second: seq<Case>, byName: bool, merged: map<Key, Case>)
    requires IsMerge(first + second, byName, merged)
    ensures Wins(second, byName, merged)
  {
    forall c | c in second
      ensures KeyOf(c, byName) in merged && merged[KeyOf(c, byName)] in second
    {
      LastSideWins(first, second, byName, merged, c);
    }
  }

  /** The merge: the preferred side is processed last and wins every key it has. */
  method Merge(base: seq<Case>, incoming: seq<Case>, byName: bool, preferBase: bool) returns (r: Option<map<Key, Case>>)
    ensures r.Some? <==> forall c :: c in base || c in incoming ==> c.name != ""
    ensures r.Some? ==> IsMerge(if preferBase then incoming + base else base + incoming, byName, r.value)
    ensures r.Some? ==> Wins(if preferBase then base else incoming, byName, r.value)
    ensures r.Some? ==> |r.value.Values| == |r.value|
    ensures r.Some? && !byName ==> KeepsLastByFrame(if preferBase then incoming + base else base + incoming, r.value.Values)
    ensures r.Some? && byName ==> KeepsLastByName(if preferBase then incoming + base else base + incoming, r.value.Values)
  {
    var first, last := if preferBase then incoming else base, if preferBase then base else incoming;
    r := MergeInOrder(first + last, byName);
    if r.Some? {
      LastSideWinsAll(first, last, byName, r.value);
      OneValueEach(first + last, byName, r.value);
      if byName {
        MergedByName(first + last, r.value);
      } else {
        MergedByFrame(first + last, r.value);
      }
    }
  }
}
