/**
 * Container ids in a process's cgroup membership text. The monitor tries three
 * regular expressions in a fixed order and uses the first that matches anywhere:
 *
 *   1. /docker/([0-9a-f]{12,64})             plain docker cgroup path
 *   2. docker-([0-9a-f]{12,64})\.scope       systemd unit scope
 *   3. /\.\./docker-([0-9a-f]{64})\.scope    scope seen from a parent namespace
 *
 * Each expression is written out as a matcher at one offset (what the regular
 * expression engine does at that offset, greedy repetition and backtracking
 * included), and re.search as the leftmost offset where the matcher succeeds.
 */
module Cgroup {
  import opened Common

  datatype Pattern = DockerPath | SystemdScope | ParentScope

  /** The order in which the monitor tries the patterns. */
  const Patterns: seq<Pattern> := [DockerPath, SystemdScope, ParentScope]

  /** The literal text before the captured id. */
  function Prefix(p: Pattern): string {
    match p
    case DockerPath => "/docker/"
    case SystemdScope => "docker-"
    case ParentScope => "/../docker-"
  }

  /** The literal text after the captured id. */
  function Suffix(p: Pattern): string {
    if p == DockerPath then "" else ".scope"
  }

  /** The character class [0-9a-f]. */
  predicate IsHex(c: char) {
    '0' <= c <= '9' || 'a' <= c <= 'f'
  }

  predicate AllHex(t: string) {
    forall k :: 0 <= k < |t| ==> IsHex(t[k])
  }

  /** The literal `lit` occurs in s at offset i. */
  predicate StartsAt(s: string, i: nat, lit: string) {
    i + |lit| <= |s| && s[i..i + |lit|] == lit
  }

  /** The length of the longest run of [0-9a-f] starting at offset j. */
  function HexRun(s: string, j: nat): (n: nat)
    requires j <= |s|
    ensures j + n <= |s|
    ensures forall k :: j <= k < j + n ==> IsHex(s[k])
    ensures j + n == |s| || !IsHex(s[j + n])
    decreases |s| - j
  {
    if j < |s| && IsHex(s[j]) then 1 + HexRun(s, j + 1) else 0
  }

  /**
   * How many characters group(1) takes when the prefix of p ends at offset j and a
   * run of n hex digits follows it, if p can match there at all.
   */
  function GroupLength(p: Pattern, s: string, j: nat, n: nat): (g: Option<nat>)
    requires j + n <= |s|
    ensures g.Some? ==> 12 <= g.value <= n && g.value <= 64
    ensures g.Some? && p == ParentScope ==> g.value == 64
  {
    match p
    case DockerPath => if n >= 12 then Some(if n < 64 then n else 64) else None
    case SystemdScope => if 12 <= n <= 64 && StartsAt(s, j + n, ".scope") then Some(n) else None
    case ParentScope => if n == 64 && StartsAt(s, j + 64, ".scope") then Some(64) else None
  }

  /** The pattern p matched at offset i, with its group(1). */
  function MatchAt(p: Pattern, s: string, i: nat): (m: Option<string>)
    requires i <= |s|
    ensures m.Some? ==> 12 <= |m.value| <= 64 && AllHex(m.value)
    ensures m.Some? && p == ParentScope ==> |m.value| == 64
  {
    var pre := Prefix(p);
    if !StartsAt(s, i, pre) then None
    else
      var j := i + |pre|;
      var n := HexRun(s, j);
      match GroupLength(p, s, j, n)
      case None => None
      case Some(g) =>
        var id := s[j..j + g];
        assert forall k :: 0 <= k < g ==> id[k] == s[j + k];
        Some(id)
  }

  /**
   * What a match of p at offset i with group(1) = id means, stated without the
   * engine: the text there reads Prefix(p) + id + Suffix(p), id is hex of the
   * allowed length, and the greedy {12,64} of pattern 1 took every hex digit it
   * could.
   */
  ghost predicate Reads(p: Pattern, s: string, i: nat, id: string) {
    && StartsAt(s, i, Prefix(p) + id + Suffix(p))
    && AllHex(id)
    && (if p == ParentScope then |id| == 64 else 12 <= |id| <= 64)
    && (p == DockerPath && |id| < 64 ==> i + |Prefix(p)| + |id| == |s| || !IsHex(s[i + |Prefix(p)| + |id|]))
  }

  /** Reading x + y at i is reading x at i, then y right after it. */
  lemma StartsAtConcat(s: string, i: nat, x: string, y: string)
    ensures StartsAt(s, i, x + y) <==> StartsAt(s, i, x) && StartsAt(s, i + |x|, y)
  {
    if i + |x| + |y| <= |s| {
      assert s[i..i + |x| + |y|] == s[i..i + |x|] + s[i + |x|..i + |x| + |y|];
      if s[i..i + |x| + |y|] == x + y {
        assert s[i..i + |x|] == (x + y)[..|x|] == x;
        assert s[i + |x|..i + |x| + |y|] == (x + y)[|x|..] == y;
      }
    }
  }

  /** A reported match, piece by piece: the prefix, the id, the suffix. */
  lemma MatchAtParts(p: Pattern, s: string, i: nat)
    requires i <= |s| && MatchAt(p, s, i).Some?
    ensures StartsAt(s, i, Prefix(p))
    ensures StartsAt(s, i + |Prefix(p)|, MatchAt(p, s, i).value)
    ensures StartsAt(s, i + |Prefix(p)| + |MatchAt(p, s, i).value|, Suffix(p))
    ensures var k := i + |Prefix(p)| + |MatchAt(p, s, i).value|;
      p == DockerPath && |MatchAt(p, s, i).value| < 64 ==> k == |s| || !IsHex(s[k])
  {
    var pre, id := Prefix(p), MatchAt(p, s, i).value;
    var j := i + |pre|;
    assert GroupLength(p, s, j, HexRun(s, j)) == Some(|id|);
    if p == DockerPath {
      assert s[j + |id|..j + |id|] == Suffix(p);
    }
  }

  /** Every match the matcher reports is described by Reads. */
  lemma MatchAtSound(p: Pattern, s: string, i: nat)
    requires i <= |s| && MatchAt(p, s, i).Some?
    ensures Reads(p, s, i, MatchAt(p, s, i).value)
  {
    var pre, id, suf := Prefix(p), MatchAt(p, s, i).value, Suffix(p);
    var j := i + |pre|;
    MatchAtParts(p, s, i);
    StartsAtConcat(s, j, id, suf);
    StartsAtConcat(s, i, pre, id + suf);
    assert pre + (id + suf) == pre + id + suf;
  }

  /** Every text that Reads describes is a match the matcher reports. */
  lemma MatchAtComplete(p: Pattern, s: string, i: nat, id: string)
    requires i <= |s| && Reads(p, s, i, id)
    ensures MatchAt(p, s, i) == Some(id)
  {
    ReadsParts(p, s, i, id);
    ReadsGroup(p, s, i, id);
  }

  /** Reads p at i, piece by piece: the prefix, the id, the suffix. */
  lemma ReadsParts(p: Pattern, s: string, i: nat, id: string)
    requires Reads(p, s, i, id)
    ensures StartsAt(s, i, Prefix(p))
    ensures StartsAt(s, i + |Prefix(p)|, id)
    ensures StartsAt(s, i + |Prefix(p)| + |id|, Suffix(p))
  {
    var pre, suf := Prefix(p), Suffix(p);
    assert pre + id + suf == pre + (id + suf);
    StartsAtConcat(s, i, pre, id + suf);
    StartsAtConcat(s, i + |pre|, id, suf);
  }

  /** When Reads p at i, the group the matcher takes is exactly the id. */
  lemma ReadsGroup(p: Pattern, s: string, i: nat, id: string)
    requires Reads(p, s, i, id)
    ensures i + |Prefix(p)| <= |s|
    ensures GroupLength(p, s, i + |Prefix(p)|, HexRun(s, i + |Prefix(p)|)) == Some(|id|)
  {
    ReadsParts(p, s, i, id);
    var j := i + |Prefix(p)|;
    HexPrefix(s, j, id);
    if p != DockerPath {
      var k := j + |id|;
      assert s[k] == s[k..k + 6][0] == '.';
      HexRunExact(s, j, |id|);
    } else if |id| < 64 {
      HexRunExact(s, j, |id|);
    }
  }

  /** A hex id read at j means a run of at least |id| hex digits there. */
  lemma HexPrefix(s: string, j: nat, id: string)
    requires StartsAt(s, j, id) && AllHex(id)
    ensures HexRun(s, j) >= |id|
  {
    forall k | j <= k < j + |id|
      ensures IsHex(s[k])
    {
      assert s[k] == s[j..j + |id|][k - j];
    }
    HexRunAtLeast(s, j, |id|);
  }

  /** A hex run of exactly n digits, ended by the end of s or a non-hex character. */
  lemma HexRunExact(s: string, j: nat, n: nat)
    requires j + n <= |s| && HexRun(s, j) >= n
    requires j + n == |s| || !IsHex(s[j + n])
    ensures HexRun(s, j) == n
  {
  }

  /** The matcher finds exactly the ids that Reads describes. */
  lemma MatchAtIff(p: Pattern, s: string, i: nat, id: string)
    requires i <= |s|
    ensures MatchAt(p, s, i) == Some(id) <==> Reads(p, s, i, id)
  {
    if MatchAt(p, s, i) == Some(id) {
      MatchAtSound(p, s, i);
    }
    if Reads(p, s, i, id) {
      MatchAtComplete(p, s, i, id);
    }
  }

  /** A run of n hex digits at j means HexRun(s, j) is at least n. */
  lemma {:induction false} HexRunAtLeast(s: string, j: nat, n: nat)
    requires j + n <= |s|
    requires forall k :: j <= k < j + n ==> IsHex(s[k])
    ensures HexRun(s, j) >= n
    decreases n
  {
    if n > 0 {
      HexRunAtLeast(s, j + 1, n - 1);
    }
  }

  /** Where re.search stopped and what group(1) captured. */
  datatype Hit = Hit(pos: nat, id: string)

  /** re.search(p, s[from..]) on offsets from `from` on: the leftmost offset where p matches. */
  function SearchFrom(p: Pattern, s: string, from: nat): Option<Hit>
    requires from <= |s|
    decreases |s| - from
  {
    var m := MatchAt(p, s, from);
    if m.Some? then Some(Hit(from, m.value))
    else if from == |s| then None
    else SearchFrom(p, s, from + 1)
  }

  /** A hit is a match with no match before it; no hit means no match at any offset. */
  lemma {:induction false} SearchFromLeftmost(p: Pattern, s: string, from: nat)
    requires from <= |s|
    ensures var r := SearchFrom(p, s, from);
      && (r.Some? ==> from <= r.value.pos <= |s| && MatchAt(p, s, r.value.pos) == Some(r.value.id))
      && (r.Some? ==> forall k :: from <= k < r.value.pos ==> MatchAt(p, s, k).None?)
      && (r.None? ==> forall k :: from <= k <= |s| ==> MatchAt(p, s, k).None?)
    decreases |s| - from
  {
    if MatchAt(p, s, from).None? && from < |s| {
      SearchFromLeftmost(p, s, from + 1);
      var r := SearchFrom(p, s, from + 1);
      assert SearchFrom(p, s, from) == r;
      if r.None? {
        assert forall k :: from + 1 <= k <= |s| ==> MatchAt(p, s, k).None?;
      } else {
        assert forall k :: from + 1 <= k < r.value.pos ==> MatchAt(p, s, k).None?;
      }
    }
  }

  /** re.search(p, s). */
  function Search(p: Pattern, s: string): Option<Hit> {
    SearchFrom(p, s, 0)
  }

  /** The pattern that decided the id, and the id. */
  datatype Found = Found(pattern: Pattern, id: string)

  /**
   * `for pattern in ps: if re.search(pattern, s): return ...`: the first pattern, in
   * list order, that matches anywhere in s decides the id.
   */
  function FirstMatch(ps: seq<Pattern>, s: string): Option<Found> {
    if |ps| == 0 then None
    else
      match Search(ps[0], s)
      case Some(h) => Some(Found(ps[0], h.id))
      case None => FirstMatch(ps[1..], s)
  }

  /**
   * A result names a pattern that decides it; no result means no pattern matches
   * anywhere.
   */
  lemma {:induction false} FirstMatchDecides(ps: seq<Pattern>, s: string)
    ensures var r := FirstMatch(ps, s);
      && (r.Some? ==> exists k :: 0 <= k < |ps| && ps[k] == r.value.pattern && Decides(ps, s, k, r.value.id))
      && (r.None? ==> forall k :: 0 <= k < |ps| ==> Search(ps[k], s).None?)
  {
    if |ps| > 0 {
      if Search(ps[0], s).Some? {
        assert Decides(ps, s, 0, Search(ps[0], s).value.id);
      } else {
        var r := FirstMatch(ps[1..], s);
        FirstMatchDecides(ps[1..], s);
        if r.Some? {
          var k :| 0 <= k < |ps[1..]| && ps[1..][k] == r.value.pattern && Decides(ps[1..], s, k, r.value.id);
          assert Decides(ps, s, k + 1, r.value.id);
        } else {
          forall k | 0 <= k < |ps|
            ensures Search(ps[k], s).None?
          {
            if k > 0 {
              assert ps[k] == ps[1..][k - 1];
            }
          }
        }
      }
    }
  }

  /** Pattern ps[k] matches s with group(1) = id and no earlier pattern matches at all. */
  ghost predicate Decides(ps: seq<Pattern>, s: string, k: int, id: string) {
    && 0 <= k < |ps|
    && Search(ps[k], s).Some? && Search(ps[k], s).value.id == id
    && forall j :: 0 <= j < k ==> Search(ps[j], s).None?
  }

  /** The container id the monitor extracts from cgroup text, if any. */
  function ContainerId(content: string): Option<Found> {
    FirstMatch(Patterns, content)
  }

  /** Every shape of pattern 3 is also a shape of pattern 2, four characters further on. */
  lemma ParentScopeIsSystemdScope(s: string, i: nat)
    requires i <= |s| && MatchAt(ParentScope, s, i).Some?
    ensures i + 4 <= |s| && MatchAt(SystemdScope, s, i + 4) == MatchAt(ParentScope, s, i)
  {
    var id := MatchAt(ParentScope, s, i).value;
    MatchAtSound(ParentScope, s, i);
    ReadsParts(ParentScope, s, i, id);
    assert s[i + 4..i + 11] == s[i..i + 11][4..] == "docker-";
    assert StartsAt(s, i + 4, "docker-");
    StartsAtConcat(s, i + 11, id, ".scope");
    StartsAtConcat(s, i + 4, "docker-", id + ".scope");
    assert "docker-" + id + ".scope" == "docker-" + (id + ".scope");
    MatchAtComplete(SystemdScope, s, i + 4, id);
  }

  /** A hit of re.search is a match at its offset. */
  lemma SearchHit(p: Pattern, s: string)
    requires Search(p, s).Some?
    ensures Search(p, s).value.pos <= |s|
    ensures MatchAt(p, s, Search(p, s).value.pos) == Some(Search(p, s).value.id)
  {
    SearchFromLeftmost(p, s, 0);
  }

  /** When re.search finds nothing, p matches at no offset. */
  lemma SearchMiss(p: Pattern, s: string, i: nat)
    requires Search(p, s).None? && i <= |s|
    ensures MatchAt(p, s, i).None?
  {
    SearchFromLeftmost(p, s, 0);
  }

  /**
   * Pattern 3 never decides: whenever it matches, pattern 2, tried before it, matches
   * too. The extracted id is always 12 to 64 hex digits, taken from pattern 1 or 2.
   */
  lemma ContainerIdShape(content: string)
    requires ContainerId(content).Some?
    ensures ContainerId(content).value.pattern in {DockerPath, SystemdScope}
    ensures 12 <= |ContainerId(content).value.id| <= 64 && AllHex(ContainerId(content).value.id)
  {
    var f := ContainerId(content).value;
    FirstMatchDecides(Patterns, content);
    var k :| 0 <= k < |Patterns| && Patterns[k] == f.pattern && Decides(Patterns, content, k, f.id);
    SearchHit(Patterns[k], content);
    var h := Search(Patterns[k], content).value;
    if k == 2 {
      ParentScopeIsSystemdScope(content, h.pos);
      SearchMiss(Patterns[1], content, h.pos + 4);
      assert false;
    }
  }
}
