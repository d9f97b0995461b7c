/** Validation of relative paths sent by the peer, and joining them under a directory. */
module PathSanitize {
  import opened Utf8

  const MAX_COMPONENT: nat := 255
  const MAX_PATH: nat := 4096

  const SLASH: Octet := 0x2F
  const DOT: Octet := 0x2E
  const SPACE: Octet := 0x20

  // ---- components ------------------------------------------------------------------------

  /** The first `c` at or after `start`, or the length. */
  function Find(s: Octets, c: Octet, start: nat): (k: nat)
    requires start <= |s|
    ensures start <= k <= |s| && (k < |s| ==> s[k] == c)
    ensures forall i | start <= i < k :: s[i] != c
    decreases |s| - start
  {
    if start == |s| || s[start] == c then start else Find(s, c, start + 1)
  }

  /** The parts between the slashes, always at least one. */
  function Components(s: Octets): (parts: seq<Octets>)
    ensures parts != []
    decreases |s|
  {
    var k := Find(s, SLASH, 0);
    if k == |s| then [s] else [s[..k]] + Components(s[k + 1..])
  }

  function Joined(parts: seq<Octets>): Octets
    requires parts != []
  {
    if |parts| == 1 then parts[0] else parts[0] + [SLASH] + Joined(parts[1..])
  }

  ghost predicate NoSlash(s: Octets) {
    forall i | 0 <= i < |s| :: s[i] != SLASH
  }

  /** The components are the only parts without slashes that join to the path. */
  lemma {:induction false} ComponentsJoin(s: Octets)
    ensures Joined(Components(s)) == s
    ensures forall k | 0 <= k < |Components(s)| :: NoSlash(Components(s)[k])
    decreases |s|
  {
    var k := Find(s, SLASH, 0);
    if k < |s| {
      ComponentsJoin(s[k + 1..]);
      var rest := Components(s[k + 1..]);
      assert ([s[..k]] + rest)[1..] == rest;
      assert s == s[..k] + [SLASH] + s[k + 1..];
    }
  }

  lemma {:induction false} ComponentsUnique(parts: seq<Octets>)
    requires parts != [] && forall k | 0 <= k < |parts| :: NoSlash(parts[k])
    ensures Components(Joined(parts)) == parts
  {
    hide Find, Components, Joined, NoSlash;
    JoinedMeans(parts);
    assert NoSlash(parts[0]);
    if |parts| == 1 {
      FirstSlash(parts[0], []);
      ComponentsMean(parts[0]);
    } else {
      var rest := parts[1..];
      ComponentsUnique(rest);
      var s := parts[0] + [SLASH] + Joined(rest);
      FirstSlash(parts[0], Joined(rest));
      ComponentsMean(s);
      assert s[..|parts[0]|] == parts[0] && s[|parts[0]| + 1..] == Joined(rest);
    }
  }

  lemma JoinedMeans(parts: seq<Octets>)
    requires parts != []
    ensures Joined(parts) == if |parts| == 1 then parts[0] else parts[0] + [SLASH] + Joined(parts[1..])
  {}

  /** The first slash comes right after a part without one. */
  lemma FirstSlash(part: Octets, rest: Octets)
    requires NoSlash(part)
    ensures Find(part, SLASH, 0) == |part| && Find(part + [SLASH] + rest, SLASH, 0) == |part|
  {
    hide Find;
    var s := part + [SLASH] + rest;
    assert s[|part|] == SLASH;
    assert forall i | 0 <= i < |part| :: s[i] == part[i];
  }

  /** The components from `start` on. */
  lemma ComponentsFrom(s: Octets, start: nat)
    requires start <= |s|
    ensures var k := Find(s, SLASH, start);
            Components(s[start..])
            == if k == |s| then [s[start..k]] else [s[start..k]] + Components(s[k + 1..])
  {
    hide Find, Components;
    var t := s[start..];
    var j, k := Find(t, SLASH, 0), Find(s, SLASH, start);
    FindFrom(s, start);
    ComponentsMean(t);
    assert t[..j] == s[start..k];
    if k < |s| { assert t[j + 1..] == s[k + 1..]; } else { assert s[start..k] == t; }
  }

  lemma FindFrom(s: Octets, start: nat)
    requires start <= |s|
    ensures Find(s[start..], SLASH, 0) == Find(s, SLASH, start) - start
  {
    hide Find;
    var t := s[start..];
    var j, k := Find(t, SLASH, 0), Find(s, SLASH, start);
    assert forall i | 0 <= i < |t| :: t[i] == s[start + i];
    assert j < |t| ==> s[start + j] == SLASH;
    assert k < |s| ==> t[k - start] == SLASH;
  }

  lemma ComponentsMean(t: Octets)
    ensures var k := Find(t, SLASH, 0);
            Components(t) == if k == |t| then [t] else [t[..k]] + Components(t[k + 1..])
  {
    hide Find;
  }

  // ---- safe names -----------------------------------------------------------------------------

  function Upper(c: Octet): Octet {
    if 0x61 <= c <= 0x7A then c - 0x20 else c
  }

  function UpperAll(s: Octets): (u: Octets)
    ensures |u| == |s| && forall k | 0 <= k < |s| :: u[k] == Upper(s[k])
  {
    if s == [] then [] else UpperAll(s[..|s| - 1]) + [Upper(s[|s| - 1])]
  }

  const CON: Octets := [0x43, 0x4F, 0x4E]
  const PRN: Octets := [0x50, 0x52, 0x4E]
  const AUX: Octets := [0x41, 0x55, 0x58]
  const NUL: Octets := [0x4E, 0x55, 0x4C]
  const COM: Octets := [0x43, 0x4F, 0x4D]
  const LPT: Octets := [0x4C, 0x50, 0x54]

  /** CON, PRN, AUX, NUL, COM1 to COM9 and LPT1 to LPT9. */
  predicate Device(up: Octets) {
    || up == CON || up == PRN || up == AUX || up == NUL
    || (|up| == 4 && (up[..3] == COM || up[..3] == LPT) && 0x31 <= up[3] <= 0x39)
  }

  /** A device name in any case, alone or before a dot. */
  ghost predicate Reserved(c: Octets) {
    exists k | 0 <= k <= |c| :: Device(UpperAll(c[..k])) && (k == |c| || c[k] == DOT)
  }

  predicate Allowed(c: Octet) {
    && SPACE <= c && c != 0x7F
    && c != 0x5C && c != 0x3A && c != 0x2A && c != 0x3F && c != 0x22 && c != 0x3C && c != 0x3E && c != 0x7C
  }

  /** The characters a name may not have, besides control characters. */
  lemma AllowedMeans(c: Octet)
    ensures Allowed(c) <==> 32 <= c as int != 127 && (c as int as char) !in "\\:*?\"<>|"
  {
    var w := "\\:*?\"<>|";
    var d := c as int as char;
    assert d in w <==>
             (d == w[0] || d == w[1] || d == w[2] || d == w[3] || d == w[4] || d == w[5] || d == w[6] || d == w[7]);
  }

  ghost predicate SafeName(c: Octets) {
    && 0 < |c| <= MAX_COMPONENT
    && c != [DOT] && c != [DOT, DOT]
    && (forall k | 0 <= k < |c| :: Allowed(c[k]))
    && c[|c| - 1] != SPACE && c[|c| - 1] != DOT
    && !Reserved(c)
  }

  lemma DeviceHasNoDot(up: Octets, k: nat)
    requires Device(up) && k < |up|
    ensures up[k] != DOT
  {
    if |up| == 4 {
      assert up[0] == up[..3][0] && up[1] == up[..3][1] && up[2] == up[..3][2];
    }
  }

  lemma UpperDot(c: Octet)
    ensures Upper(c) == DOT <==> c == DOT
  {}

  /** Only the part before the first dot can be a device name. */
  lemma ReservedByStem(c: Octets)
    ensures Reserved(c) <==> Device(UpperAll(c[..Find(c, DOT, 0)]))
  {
    hide Device, Upper;
    var stem := Find(c, DOT, 0);
    if Reserved(c) {
      var k :| 0 <= k <= |c| && Device(UpperAll(c[..k])) && (k == |c| || c[k] == DOT);
      forall i | 0 <= i < k ensures c[i] != DOT {
        DeviceHasNoDot(UpperAll(c[..k]), i);
        UpperDot(c[i]);
      }
      assert k == stem;
    }
  }

  method IsReservedDeviceName(c: Octets) returns (r: bool)
    ensures r <==> Reserved(c)
  {
    hide Upper, Reserved, Device;
    ReservedByStem(c);
    var stem := c[..Find(c, DOT, 0)];
    if |stem| == 0 {
      NoDevice(UpperAll(stem));
      return false;
    }
    var up: Octets := [];
    for k := 0 to |stem|
      invariant up == UpperAll(stem[..k])
    {
      assert stem[..k + 1][..k] == stem[..k];
      up := up + [Upper(stem[k])];
    }
    assert stem[..|stem|] == stem;
    return Device(up);
  }

  lemma NoDevice(up: Octets)
    requires up == []
    ensures !Device(up)
  {}

  method SafeComponent(c: Octets) returns (r: bool)
    ensures r <==> SafeName(c)
  {
    hide Reserved, Allowed;
    if |c| == 0 || c == [DOT] || c == [DOT, DOT] { return false; }
    if |c| > MAX_COMPONENT { return false; }
    for k := 0 to |c|
      invariant forall j | 0 <= j < k :: Allowed(c[j])
    {
      if !Allowed(c[k]) { return false; }
    }
    if c[|c| - 1] == SPACE || c[|c| - 1] == DOT { return false; }
    var reserved := IsReservedDeviceName(c);
    return !reserved;
  }

  // ---- whole paths --------------------------------------------------------------------------------

  ghost predicate AllSafe(parts: seq<Octets>) {
    forall k | 0 <= k < |parts| :: SafeName(parts[k])
  }

  ghost predicate SafePath(rel: Octets) {
    0 < |rel| <= MAX_PATH && Text(rel) && AllSafe(Components(rel))
  }

  lemma AllSafeCons(c: Octets, rest: seq<Octets>)
    ensures AllSafe([c] + rest) <==> SafeName(c) && AllSafe(rest)
    ensures AllSafe([c]) <==> SafeName(c)
  {
    var all := [c] + rest;
    assert all[0] == c && forall k | 0 <= k < |rest| :: rest[k] == all[k + 1];
  }

  /** A slash at the front or the end leaves an empty component. */
  lemma EdgeSlash(s: Octets, start: nat)
    requires start <= |s| && (start == |s| || s[start] == SLASH)
    ensures !AllSafe(Components(s[start..]))
  {
    ComponentsFrom(s, start);
    var k := Find(s, SLASH, start);
    assert k == start;
    assert Components(s[start..])[0] == [];
    assert !SafeName([]);
  }

  method IsSafeRelativePath(rel: Octets) returns (r: bool)
    ensures r <==> SafePath(rel)
  {
    hide Text, SafeName, AllSafe, Components;
    if |rel| == 0 || |rel| > MAX_PATH { return false; }
    assert rel[0..] == rel;
    if rel[0] == SLASH {
      EdgeSlash(rel, 0);
      return false;
    }
    var utf8 := ValidUtf8(rel);
    if !utf8 { return false; }
    var start := 0;
    while start <= |rel|
      invariant start <= |rel|
      invariant AllSafe(Components(rel)) <==> AllSafe(Components(rel[start..]))
      decreases |rel| - start
    {
      var slash := Find(rel, SLASH, start);
      var part := rel[start..slash];
      ComponentsFrom(rel, start);
      AllSafeCons(part, if slash < |rel| then Components(rel[slash + 1..]) else []);
      var safe := SafeComponent(part);
      if !safe { return false; }
      if slash == |rel| { break; }
      start := slash + 1;
      if start == |rel| {
        EdgeSlash(rel, start);
        return false;
      }
    }
    return true;
  }

  // ---- joining ----------------------------------------------------------------------------------------

  function NonEmpty(parts: seq<Octets>): seq<Octets> {
    if parts == [] then []
    else if parts[0] == [] then NonEmpty(parts[1..]) else [parts[0]] + NonEmpty(parts[1..])
  }

  /** A path is the list of its components; appending one adds it at the end. */
  method JoinSafe(base: seq<Octets>, rel: Octets) returns (out: seq<Octets>)
    ensures out == base + NonEmpty(Components(rel))
  {
    hide Components;
    out := base;
    var start := 0;
    assert rel[0..] == rel;
    ghost var done := false;
    while start < |rel|
      invariant start <= |rel|
      invariant !done ==> out + NonEmpty(Components(rel[start..])) == base + NonEmpty(Components(rel))
      invariant done ==> out == base + NonEmpty(Components(rel))
      decreases |rel| - start
    {
      var slash := Find(rel, SLASH, start);
      var part := rel[start..slash];
      ComponentsFrom(rel, start);
      NonEmptyCons(part, if slash < |rel| then Components(rel[slash + 1..]) else []);
      if part != [] { out := out + [part]; }
      if slash == |rel| {
        done := true;
        break;
      }
      start := slash + 1;
    }
    if !done { NoComponents(rel, start); }
  }

  lemma NonEmptyCons(c: Octets, rest: seq<Octets>)
    ensures NonEmpty([c] + rest) == (if c == [] then [] else [c]) + NonEmpty(rest)
    ensures NonEmpty([c]) == if c == [] then [] else [c]
  {
    assert ([c] + rest)[1..] == rest;
    assert [c][1..] == [];
  }

  lemma NoComponents(s: Octets, start: nat)
    requires start == |s|
    ensures NonEmpty(Components(s[start..])) == []
  {
    assert s[start..] == [];
    assert Components([]) == [[]];
    NonEmptyCons([], []);
  }

  lemma {:induction false} SafeAreNonEmpty(parts: seq<Octets>)
    requires AllSafe(parts)
    ensures NonEmpty(parts) == parts
  {
    hide SafeName;
    if parts != [] {
      assert SafeName(parts[0]);
      NotEmpty(parts[0]);
      assert forall k | 0 <= k < |parts[1..]| :: parts[1..][k] == parts[k + 1];
      SafeAreNonEmpty(parts[1..]);
    }
  }

  lemma NotEmpty(c: Octets)
    requires SafeName(c)
    ensures c != [] && c != [DOT] && c != [DOT, DOT]
  {}

  /** A path with "." and ".." resolved by name. */
  function Resolved(path: seq<Octets>): seq<Octets> {
    if path == [] then []
    else
      var init, last := Resolved(path[..|path| - 1]), path[|path| - 1];
      if last == [] || last == [DOT] then init
      else if last == [DOT, DOT] then (if init == [] then [] else init[..|init| - 1])
      else init + [last]
  }

  lemma {:induction false} ResolvedStays(base: seq<Octets>, parts: seq<Octets>)
    requires AllSafe(parts)
    ensures Resolved(base + parts) == Resolved(base) + parts
    decreases |parts|
  {
    hide SafeName, Resolved;
    if parts == [] {
      assert base + parts == base;
    } else {
      var n := |parts| - 1;
      assert forall k | 0 <= k < n :: parts[..n][k] == parts[k];
      ResolvedStays(base, parts[..n]);
      assert base + parts == base + parts[..n] + [parts[n]];
      assert SafeName(parts[n]);
      ResolvedSnoc(base + parts[..n], parts[n]);
      assert Resolved(base) + parts == Resolved(base) + parts[..n] + [parts[n]];
    }
  }

  lemma ResolvedSnoc(path: seq<Octets>, last: Octets)
    requires SafeName(last)
    ensures Resolved(path + [last]) == Resolved(path) + [last]
  {
    hide SafeName;
    NotEmpty(last);
    assert (path + [last])[..|path|] == path;
  }

  /**
   What an accepted path joins to: the directory followed by exactly its components,
   none of them empty, "." or "..", so that resolving names never leaves the directory.
   */
  lemma JoinStaysInside(base: seq<Octets>, rel: Octets)
    requires SafePath(rel)
    ensures var joined := base + NonEmpty(Components(rel));
            && joined == base + Components(rel)
            && Resolved(joined) == Resolved(base) + Components(rel)
            && Joined(Components(rel)) == rel
            && forall k | 0 <= k < |Components(rel)| ::
                 && Components(rel)[k] != [] && Components(rel)[k] != [DOT] && Components(rel)[k] != [DOT, DOT]
                 && NoSlash(Components(rel)[k])
  {
    hide SafeName, Text, Components, Joined, Resolved, NonEmpty;
    SafeAreNonEmpty(Components(rel));
    ResolvedStays(base, Components(rel));
    ComponentsJoin(rel);
    forall k | 0 <= k < |Components(rel)|
      ensures Components(rel)[k] != [] && Components(rel)[k] != [DOT] && Components(rel)[k] != [DOT, DOT]
    {
      NotEmpty(Components(rel)[k]);
    }
  }
}
