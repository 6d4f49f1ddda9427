/** Human handles for servers: `alias.rs`. */
module Alias {
  import opened Arithmetic
  import opened Wrappers

  const MAX_ALIAS_LEN := 32

  /** `usize` counts servers and numbers candidates. */
  const USIZE_COUNT := 0x1_0000_0000_0000_0000

  predicate IsAscii(c: char) { c as int < 128 }

  predicate IsLower(c: char) { 'a' <= c <= 'z' }

  predicate IsDigit(c: char) { '0' <= c <= '9' }

  predicate IsAlnum(c: char) { IsLower(c) || IsDigit(c) }

  predicate IsHex(c: char) { IsDigit(c) || 'a' <= c <= 'f' || 'A' <= c <= 'F' }

  function ToLower(c: char): char {
    if 'A' <= c <= 'Z' then (c as int + 32) as char else c
  }

  function ToLowerAll(s: string): (r: string)
    ensures |r| == |s| && forall i :: 0 <= i < |s| ==> r[i] == ToLower(s[i])
  {
    seq(|s|, i requires 0 <= i < |s| => ToLower(s[i]))
  }

  predicate IsBareId(s: string) {
    |s| == 16 && forall i :: 0 <= i < |s| ==> IsHex(s[i])
  }

  predicate IsHandle(s: string) {
    forall i :: 0 <= i < |s| ==> IsAlnum(s[i]) || s[i] == '-'
  }

  /** Safe both as a CLI argument and as a systemd instance name, and never
      mistaken for a bare server id. */
  predicate IsValid(alias: string) {
    && 1 <= |alias| <= MAX_ALIAS_LEN
    && IsAlnum(alias[0])
    && IsHandle(alias)
    && !IsBareId(alias)
  }

  /** The slug built so far after reading the rest of a name. */
  function Scan(name: string, slug: string, separator: bool): string
    decreases |name|
  {
    if name == [] then slug
    else if !IsAscii(name[0]) then Scan(name[1..], slug, separator)
    else
      var c := ToLower(name[0]);
      if IsAlnum(c) then Scan(name[1..], (if separator && slug != [] then slug + "-" else slug) + [c], false)
      else Scan(name[1..], slug, true)
  }

  function TrimDashes(s: string): (r: string)
    ensures r <= s && (r != [] ==> r[|r| - 1] != '-')
    ensures s != [] && s[0] != '-' ==> r != []
  {
    if s != [] && s[|s| - 1] == '-' then TrimDashes(s[..|s| - 1]) else s
  }

  function Prefix(s: string, length: nat): string {
    if |s| <= length then s else s[..length]
  }

  function Slug(name: string): string {
    var cut := TrimDashes(Prefix(Scan(name, "", false), MAX_ALIAS_LEN));
    var filled := if cut == [] then "server" else cut;
    if IsBareId(filled) then filled + "-s" else filled
  }

  /** `slugify`: one pass over the characters, then three in-place fixes. */
  method Slugify(name: string) returns (slug: string)
    ensures slug == Slug(name)
    ensures IsValid(slug)
  {
    slug := "";
    var separator := false;
    for k := 0 to |name|
      invariant Scan(name[k..], slug, separator) == Scan(name, "", false)
    {
      assert name[k..][1..] == name[k + 1..];
      if IsAscii(name[k]) {
        var c := ToLower(name[k]);
        if IsAlnum(c) {
          if separator && slug != [] {
            slug := slug + "-";
          }
          slug := slug + [c];
          separator := false;
        } else {
          separator := true;
        }
      }
    }
    slug := Prefix(slug, MAX_ALIAS_LEN);
    ghost var cut := slug;
    while slug != [] && slug[|slug| - 1] == '-'
      invariant TrimDashes(slug) == TrimDashes(cut)
    {
      slug := slug[..|slug| - 1];
    }
    if slug == [] {
      slug := "server";
    }
    if IsBareId(slug) {
      slug := slug + "-s";
    }
    SlugIsValid(name);
  }

  /** Words of lower-case letters and digits, joined by single dashes. */
  ghost predicate IsClean(s: string) {
    && IsHandle(s)
    && (s != [] ==> s[0] != '-' && s[|s| - 1] != '-')
    && forall i :: 0 < i < |s| && s[i] == '-' ==> s[i - 1] != '-'
  }

  lemma {:induction false} ScanIsClean(name: string, slug: string, separator: bool)
    requires IsClean(slug)
    ensures IsClean(Scan(name, slug, separator))
    decreases |name|
  {
    if name != [] {
      if !IsAscii(name[0]) {
        ScanIsClean(name[1..], slug, separator);
      } else {
        var c := ToLower(name[0]);
        if IsAlnum(c) {
          ScanIsClean(name[1..], (if separator && slug != [] then slug + "-" else slug) + [c], false);
        } else {
          ScanIsClean(name[1..], slug, true);
        }
      }
    }
  }

  /** A clean name is read back unchanged, from any position in it. */
  lemma {:induction false} ScanFixesClean(s: string, i: nat)
    requires IsClean(s) && i <= |s|
    ensures if 0 < i < |s| && s[i - 1] == '-' then Scan(s[i..], s[..i - 1], true) == s
            else Scan(s[i..], s[..i], false) == s
    decreases |s| - i
  {
    if i == |s| {
      assert s[..i] == s;
    } else {
      assert s[i..][1..] == s[i + 1..] && s[..i] + [s[i]] == s[..i + 1];
      if 0 < i && s[i - 1] == '-' {
        assert s[..i - 1] + "-" == s[..i];
      }
      ScanFixesClean(s, i + 1);
    }
  }

  lemma TrimKeepsClean(s: string)
    requires IsHandle(s) && (s != [] ==> s[0] != '-')
    requires forall i :: 0 < i < |s| && s[i] == '-' ==> s[i - 1] != '-'
    ensures IsClean(TrimDashes(s))
  {
  }

  lemma TrimFixesClean(s: string)
    requires IsClean(s)
    ensures TrimDashes(s) == s
  {
  }

  /** What `slugify` returns for any name at all. */
  lemma SlugShape(name: string)
    ensures var s := Slug(name); s != [] && |s| <= MAX_ALIAS_LEN && IsClean(s) && !IsBareId(s)
  {
    var raw := Scan(name, "", false);
    ScanIsClean(name, "", false);
    TrimKeepsClean(Prefix(raw, MAX_ALIAS_LEN));
    var cut := TrimDashes(Prefix(raw, MAX_ALIAS_LEN));
    var filled := if cut == [] then "server" else cut;
    if IsBareId(filled) {
      var s := filled + "-s";
      assert s[16] == '-' && !IsBareId(s);
    }
  }

  lemma SlugIsValid(name: string)
    ensures IsValid(Slug(name))
  {
    SlugShape(name);
  }

  lemma SlugIsIdempotent(name: string)
    ensures Slug(Slug(name)) == Slug(name)
  {
    SlugShape(name);
    var s := Slug(name);
    ScanFixesClean(s, 0);
    assert s[0..] == s && s[..0] == "";
    TrimFixesClean(s);
  }

  datatype Server = Server(name: string, country: Option<string>, alias: Option<string>)

  function Country(s: Server): Option<string> {
    if s.country.None? then None
    else
      var code := ToLowerAll(s.country.value);
      if |code| == 2 && IsLower(code[0]) && IsLower(code[1]) then Some(code) else None
  }

  function Suggest(s: Server): (base: string) {
    var slug := Slug(s.name);
    var country := Country(s);
    if country.None? || country.value + "-" <= slug then slug
    else Slug(country.value + "-" + slug)
  }

  lemma SuggestIsValid(s: Server)
    ensures IsValid(Suggest(s))
  {
    SlugIsValid(s.name);
    var country := Country(s);
    if country.Some? {
      SlugIsValid(country.value + "-" + Slug(s.name));
    }
  }

  function Decimal(n: nat): (digits: string)
    ensures digits != [] && forall i :: 0 <= i < |digits| ==> IsDigit(digits[i])
  {
    var last := [('0' as int + n % 10) as char];
    if n < 10 then last else Decimal(n / 10) + last
  }

  function Value(digits: string): int {
    if digits == [] then 0
    else Value(digits[..|digits| - 1]) * 10 + (digits[|digits| - 1] as int - '0' as int)
  }

  lemma {:induction false} DecimalDecodes(n: nat)
    ensures Value(Decimal(n)) == n
  {
    if n >= 10 {
      DecimalDecodes(n / 10);
      assert Decimal(n)[..|Decimal(n)| - 1] == Decimal(n / 10);
    }
  }

  function PowerOf10(k: nat): nat { if k == 0 then 1 else 10 * PowerOf10(k - 1) }

  lemma {:induction false} DecimalLength(n: nat, k: nat)
    requires 0 < k && n < PowerOf10(k)
    ensures |Decimal(n)| <= k
  {
    assert PowerOf10(0) == 1;
    if n >= 10 {
      DecimalLength(n / 10, k - 1);
    }
  }

  lemma {:induction false} PowersMultiply(j: nat, k: nat)
    ensures PowerOf10(j + k) == PowerOf10(j) * PowerOf10(k)
  {
    if j > 0 {
      PowersMultiply(j - 1, k);
    }
  }

  lemma UsizeDigits(n: nat)
    requires n <= USIZE_COUNT + 2
    ensures |Decimal(n)| <= 20
  {
    assert PowerOf10(2) == 100;
    PowersMultiply(2, 2);
    PowersMultiply(4, 4);
    PowersMultiply(8, 8);
    PowersMultiply(16, 4);
    DecimalLength(n, 20);
  }

  /** The `number`-th numbered variant of a taken base. */
  function Candidate(base: string, number: nat): string {
    var suffix := "-" + Decimal(number);
    var keep := if |suffix| <= MAX_ALIAS_LEN then MAX_ALIAS_LEN - |suffix| else 0;
    var stem := TrimDashes(Prefix(base, keep));
    (if stem == [] then "server" else stem) + suffix
  }

  lemma CandidateIsValid(base: string, number: nat)
    requires IsValid(base) && number <= USIZE_COUNT + 2
    ensures IsValid(Candidate(base, number))
  {
    UsizeDigits(number);
    var suffix := "-" + Decimal(number);
    var stem := TrimDashes(Prefix(base, MAX_ALIAS_LEN - |suffix|));
    assert stem[0] == base[0];
    var candidate := stem + suffix;
    assert Candidate(base, number) == candidate;
    assert candidate[|stem|] == '-';
    forall i | 0 <= i < |candidate|
      ensures IsAlnum(candidate[i]) || candidate[i] == '-'
    {
      if i < |stem| {
        assert stem[i] == base[i];
      }
    }
  }

  lemma CandidateTail(base: string, number: nat)
    ensures var c, d := Candidate(base, number), Decimal(number);
            |d| < |c| && c[|c| - |d| - 1] == '-' && c[|c| - |d|..] == d
  {
  }

  lemma CandidatesDiffer(base: string, m: nat, n: nat)
    requires m != n
    ensures Candidate(base, m) != Candidate(base, n)
  {
    DecimalDecodes(m);
    DecimalDecodes(n);
    CandidateTail(base, m);
    CandidateTail(base, n);
    TailsDiffer(Candidate(base, m), Candidate(base, n), Decimal(m), Decimal(n));
  }

  /** What follows the last dash of a name. */
  lemma TailsDiffer(a: string, b: string, x: string, y: string)
    requires |x| < |a| && a[|a| - |x| - 1] == '-' && a[|a| - |x|..] == x
    requires |y| < |b| && b[|b| - |y| - 1] == '-' && b[|b| - |y|..] == y
    requires forall i :: 0 <= i < |x| ==> x[i] != '-'
    requires forall i :: 0 <= i < |y| ==> y[i] != '-'
    requires x != y
    ensures a != b
  {
  }

  ghost function Candidates(base: string, limit: nat): (names: set<string>)
    requires 2 <= limit
    ensures forall name :: name in names <==> exists k: nat :: 2 <= k < limit && name == Candidate(base, k)
  {
    if limit == 2 then {} else Candidates(base, limit - 1) + {Candidate(base, limit - 1)}
  }

  lemma CandidateIsNew(base: string, limit: nat)
    requires 2 <= limit
    ensures Candidate(base, limit) !in Candidates(base, limit)
  {
    forall k: nat | 2 <= k < limit
      ensures Candidate(base, k) != Candidate(base, limit)
    {
      CandidatesDiffer(base, k, limit);
    }
  }

  lemma {:induction false} CandidateCount(base: string, limit: nat)
    requires 2 <= limit
    ensures |Candidates(base, limit)| == limit - 2
  {
    if limit > 2 {
      CandidateIsNew(base, limit - 1);
      CandidateCount(base, limit - 1);
    }
  }

  /** Pigeonhole: no more candidates can be refused than there are names in use. */
  lemma RefusedAreFew(base: string, used: set<string>, limit: nat)
    requires 2 <= limit && forall k: nat :: 2 <= k < limit ==> Candidate(base, k) in used
    ensures limit - 2 <= |used|
  {
    CandidateCount(base, limit);
    SubsetSize(Candidates(base, limit), used);
  }

  /** The base if it is free, else its lowest free numbering from 2 up. */
  ghost predicate IsAvailable(base: string, used: set<string>, alias: string) {
    && alias !in used
    && if base !in used then alias == base
       else exists n: nat :: 2 <= n <= |used| + 2 && alias == Candidate(base, n)
                          && forall k: nat :: 2 <= k < n ==> Candidate(base, k) in used
  }

  lemma AvailableIsUnique(base: string, used: set<string>, a: string, b: string)
    requires IsAvailable(base, used, a) && IsAvailable(base, used, b)
    ensures a == b
  {
  }

  method AvailableAlias(base: string, used: set<string>) returns (alias: string)
    ensures IsAvailable(base, used, alias)
  {
    if base !in used {
      return base;
    }
    var number := 2;
    alias := Candidate(base, number);
    while alias in used
      invariant 2 <= number <= |used| + 2
      invariant alias == Candidate(base, number)
      invariant forall k: nat :: 2 <= k < number ==> Candidate(base, k) in used
      decreases |used| + 2 - number
    {
      RefusedAreFew(base, used, number + 1);
      number := number + 1;
      alias := Candidate(base, number);
    }
  }

  /** Whether a server keeps the alias it has: it is usable, and nobody before it has it. */
  ghost predicate Keeps(servers: seq<Server>, i: nat)
    requires i < |servers|
  {
    && servers[i].alias.Some?
    && IsValid(servers[i].alias.value)
    && forall j :: 0 <= j < i ==> servers[j].alias != servers[i].alias
  }

  /** The names already in use when server `i` of `after` is given one. */
  ghost function InUse(before: seq<Server>, after: seq<Server>, i: nat): set<string>
    requires |before| == |after|
  {
    set j | 0 <= j < |after| && after[j].alias.Some? && (Keeps(before, j) || j < i) :: after[j].alias.value
  }

  /** Server `i` keeps its alias, or has been given the first free name made from
      its own; nothing else about it changes. */
  ghost predicate Settled(before: seq<Server>, after: seq<Server>, i: nat)
    requires |before| == |after| && i < |after|
  {
    && after[i].alias.Some?
    && after[i] == before[i].(alias := after[i].alias)
    && if Keeps(before, i) then after[i] == before[i]
       else IsAvailable(Suggest(before[i]), InUse(before, after, i), after[i].alias.value)
  }

  /** What `assign` does to a catalogue, in traversal order. */
  ghost predicate Assigned(before: seq<Server>, after: seq<Server>) {
    |before| == |after| && forall i :: 0 <= i < |after| ==> Settled(before, after, i)
  }

  /** Every server ends with a valid alias, and no two share one. */
  lemma AssignedAreValidAndDistinct(before: seq<Server>, after: seq<Server>)
    requires Assigned(before, after) && |before| <= USIZE_COUNT
    ensures forall i :: 0 <= i < |after| ==> after[i].alias.Some? && IsValid(after[i].alias.value)
    ensures forall i, j :: 0 <= i < j < |after| ==> after[i].alias != after[j].alias
  {
    forall i | 0 <= i < |after|
      ensures after[i].alias.Some? && IsValid(after[i].alias.value)
    {
      AssignedIsValid(before, after, i);
    }
    forall i, j | 0 <= i < j < |after|
      ensures after[i].alias != after[j].alias
    {
      AssignedDiffer(before, after, i, j);
    }
  }

  lemma AssignedIsValid(before: seq<Server>, after: seq<Server>, i: nat)
    requires Assigned(before, after) && |before| <= USIZE_COUNT && i < |after|
    ensures after[i].alias.Some? && IsValid(after[i].alias.value)
  {
    assert Settled(before, after, i);
    if !Keeps(before, i) {
      SuggestIsValid(before[i]);
      InUseSize(before, after, i);
      AvailableIsValid(Suggest(before[i]), InUse(before, after, i), after[i].alias.value);
    }
  }

  lemma AvailableIsValid(base: string, used: set<string>, alias: string)
    requires IsValid(base) && |used| <= USIZE_COUNT && IsAvailable(base, used, alias)
    ensures IsValid(alias)
  {
    if base in used {
      var n: nat :| 2 <= n <= |used| + 2 && alias == Candidate(base, n);
      CandidateIsValid(base, n);
    }
  }

  lemma AssignedDiffer(before: seq<Server>, after: seq<Server>, i: nat, j: nat)
    requires Assigned(before, after) && i < j < |after|
    ensures after[i].alias != after[j].alias
  {
    assert Settled(before, after, i) && Settled(before, after, j);
    if !Keeps(before, j) {
      assert after[i].alias.value in InUse(before, after, j);
    } else if !Keeps(before, i) {
      assert after[j].alias.value in InUse(before, after, i);
    }
  }

  /** A second assignment changes nothing. */
  lemma AssignIsIdempotent(before: seq<Server>, once: seq<Server>, twice: seq<Server>)
    requires Assigned(before, once) && Assigned(once, twice) && |before| <= USIZE_COUNT
    ensures twice == once
  {
    AssignedAreValidAndDistinct(before, once);
    forall i | 0 <= i < |once|
      ensures twice[i] == once[i]
    {
      assert Keeps(once, i) && Settled(once, twice, i);
    }
  }

  lemma InUseAgrees(before: seq<Server>, a: seq<Server>, b: seq<Server>, i: nat)
    requires |before| == |a| == |b|
    requires forall j :: 0 <= j < |a| && (Keeps(before, j) || j < i) ==> a[j].alias == b[j].alias
    ensures InUse(before, a, i) == InUse(before, b, i)
  {
  }

  /** There are at most as many names as servers. */
  lemma InUseSize(before: seq<Server>, after: seq<Server>, i: nat)
    requires |before| == |after|
    ensures |InUse(before, after, i)| <= |after|
  {
    NamesSize(after, |after|, InUse(before, after, i));
  }

  lemma {:induction false} NamesSize(servers: seq<Server>, n: nat, names: set<string>)
    requires n <= |servers|
    requires forall name :: name in names ==> exists j :: 0 <= j < n && servers[j].alias == Some(name)
    ensures |names| <= n
  {
    if n == 0 {
      assert names == {};
    } else if servers[n - 1].alias.Some? {
      var last := servers[n - 1].alias.value;
      NamesSize(servers, n - 1, names - {last});
      SubsetSize(names, names - {last} + {last});
    } else {
      NamesSize(servers, n - 1, names);
    }
  }

  /** The outcome is determined by the catalogue. */
  lemma AssignIsDeterministic(before: seq<Server>, a: seq<Server>, b: seq<Server>)
    requires Assigned(before, a) && Assigned(before, b)
    ensures a == b
  {
    AssignAgreesUpTo(before, a, b, |before|);
  }

  lemma {:induction false} AssignAgreesUpTo(before: seq<Server>, a: seq<Server>, b: seq<Server>, n: nat)
    requires Assigned(before, a) && Assigned(before, b) && n <= |before|
    ensures forall i :: 0 <= i < n ==> a[i] == b[i]
  {
    if n > 0 {
      AssignAgreesUpTo(before, a, b, n - 1);
      SettledAgree(before, a, b, n - 1);
    }
  }

  lemma SettledAgree(before: seq<Server>, a: seq<Server>, b: seq<Server>, i: nat)
    requires Assigned(before, a) && Assigned(before, b) && i < |before|
    requires forall j :: 0 <= j < i ==> a[j] == b[j]
    ensures a[i] == b[i]
  {
    assert Settled(before, a, i) && Settled(before, b, i);
    if !Keeps(before, i) {
      forall j | 0 <= j < |a| && (Keeps(before, j) || j < i)
        ensures a[j].alias == b[j].alias
      {
        assert Settled(before, a, j) && Settled(before, b, j);
      }
      InUseAgrees(before, a, b, i);
      AvailableIsUnique(Suggest(before[i]), InUse(before, a, i), a[i].alias.value, b[i].alias.value);
    }
  }

  /** After the first pass: usable aliases are reserved, the others are gone. */
  ghost function Reserved(before: seq<Server>): (after: seq<Server>)
    ensures |after| == |before|
  {
    seq(|before|, i requires 0 <= i < |before| => if Keeps(before, i) then before[i] else before[i].(alias := None))
  }

  method ReserveAliases(servers: array<Server>) returns (used: set<string>)
    modifies servers
    ensures servers[..] == Reserved(old(servers[..]))
    ensures used == InUse(old(servers[..]), servers[..], 0)
  {
    ghost var before := servers[..];
    used := {};
    for i := 0 to servers.Length
      invariant forall j :: i <= j < servers.Length ==> servers[j] == before[j]
      invariant forall j :: 0 <= j < i ==> servers[j] == Reserved(before)[j]
      invariant forall name :: name in used <==>
                    exists j :: 0 <= j < i && Keeps(before, j) && before[j].alias == Some(name)
      invariant forall j :: 0 <= j < i && before[j].alias.Some? && IsValid(before[j].alias.value) ==>
          before[j].alias.value in used
    {
      var alias := servers[i].alias;
      if alias.Some? && IsValid(alias.value) && alias.value !in used {
        assert Keeps(before, i);
        used := used + {alias.value};
      } else {
        assert !Keeps(before, i);
        servers[i] := servers[i].(alias := None);
      }
    }
    assert servers[..] == Reserved(before);
  }

  /** Naming a server that keeps nothing disturbs no earlier decision. */
  lemma NamingKeepsSettled(before: seq<Server>, now: seq<Server>, next: seq<Server>, i: nat, j: nat)
    requires j < i < |before| == |now| == |next| && !Keeps(before, i)
    requires next == now[i := next[i]] && Settled(before, now, j)
    ensures Settled(before, next, j)
  {
    InUseAgrees(before, now, next, j);
  }

  /** `assign` over the servers of all subscriptions, flattened in traversal order. */
  method Assign(servers: array<Server>)
    modifies servers
    ensures Assigned(old(servers[..]), servers[..])
  {
    ghost var before := servers[..];
    var used := ReserveAliases(servers);
    for i := 0 to servers.Length
      invariant forall j :: i <= j < servers.Length ==> servers[j] == Reserved(before)[j]
      invariant used == InUse(before, servers[..], i)
      invariant forall j :: 0 <= j < i ==> Settled(before, servers[..], j)
    {
      ghost var now := servers[..];
      if servers[i].alias.None? {
        var alias := AvailableAlias(Suggest(servers[i]), used);
        used := used + {alias};
        servers[i] := servers[i].(alias := Some(alias));
        assert servers[..] == now[i := servers[i]];
        forall j | 0 <= j < i
          ensures Settled(before, servers[..], j)
        {
          NamingKeepsSettled(before, now, servers[..], i, j);
        }
        InUseAgrees(before, now, servers[..], i);
        assert Suggest(now[i]) == Suggest(before[i]);
      }
      NextInUse(before, servers[..], i);
    }
  }

  lemma NextInUse(before: seq<Server>, after: seq<Server>, i: nat)
    requires i < |before| == |after| && after[i].alias.Some?
    ensures InUse(before, after, i + 1) == InUse(before, after, i) + {after[i].alias.value}
  {
  }
}
