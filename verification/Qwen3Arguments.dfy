/** The argument converter of the Qwen3 tool-call parser: what its two regular expressions match, a
    scanner that computes it, and the round trip with the chat template that writes parameters. */
module Qwen3Arguments {
  import opened Effects

  /** The keys keep the order of their first appearance. */
  type Arguments = seq<(string, string)>

  const OPEN: seq<string> := ["<", "parameter", "="]
  const CLOSE: seq<string> := ["<", "/", "parameter", ">"]

  /** Unicode white space. */
  predicate Space(c: char) {
    || '\t' <= c <= '\r' || c == ' ' || c == '\U{0085}' || c == '\U{00A0}' || c == '\U{1680}'
    || '\U{2000}' <= c <= '\U{200A}' || c == '\U{2028}' || c == '\U{2029}' || c == '\U{202F}'
    || c == '\U{205F}' || c == '\U{3000}'
  }

  predicate AllSpace(s: string, from: nat, to: nat)
    requires from <= to <= |s|
  {
    forall i :: from <= i < to ==> Space(s[i])
  }

  predicate Word(s: string, p: nat, w: string) {
    p + |w| <= |s| && s[p..p + |w|] == w
  }

  // ---------------------------------------------------------------------------------------------
  // What the expressions mean

  /** `s` has the words from `p` to `e`, with any white space between them. */
  ghost predicate Spelled(s: string, p: nat, words: seq<string>, e: nat)
    decreases |words|, s, p
  {
    && |words| > 0 && Word(s, p, words[0])
    && (if |words| == 1 then e == p + |words[0]|
        else exists q: nat ::
          p + |words[0]| <= q <= |s| && AllSpace(s, p + |words[0]|, q) && Spelled(s, q, words[1..], e))
  }

  /** The end of a value: a closing tag, or, consuming nothing, the next opening one. */
  ghost predicate Ends(s: string, q: nat, e: nat) {
    Spelled(s, q, CLOSE, e) || (e == q && exists o :: Spelled(s, q, OPEN, o))
  }

  datatype Match = Match(start: nat, name: string, value: string, end: nat)

  /** `_PARAM_RE` at `m.start`: the name runs to the first `>`, the value to the first end. */
  ghost predicate Matches(s: string, m: Match, e: nat, n: nat, g: nat, q: nat) {
    && Spelled(s, m.start, OPEN, e)
    && e <= n <= g < q <= |s| && AllSpace(s, e, n) && !Space(s[n])
    && s[g] == '>' && (forall i :: n <= i < g ==> s[i] != '>')
    && m.name == s[n..g] && m.value == s[g + 1..q]
    && Ends(s, q, m.end) && (forall r: nat, o :: g < r < q ==> !Ends(s, r, o))
  }

  ghost predicate IsMatch(s: string, m: Match) {
    exists e, n, g, q :: Matches(s, m, e, n, g, q)
  }

  // ---------------------------------------------------------------------------------------------
  // The scanner

  function SkipSpace(s: string, p: nat): (r: nat)
    requires p <= |s|
    ensures p <= r <= |s| && AllSpace(s, p, r) && (r < |s| ==> !Space(s[r]))
    decreases |s| - p
  {
    if p < |s| && Space(s[p]) then SkipSpace(s, p + 1) else p
  }

  function Width(words: seq<string>): nat {
    if |words| == 0 then 0 else |words[0]| + Width(words[1..])
  }

  function Spell(s: string, p: nat, words: seq<string>): (e: Option<nat>)
    ensures e.Some? ==> e.value <= |s|
    ensures e.Some? ==> p + Width(words) <= e.value
    decreases |words|, s, p
  {
    if |words| == 0 || !Word(s, p, words[0]) then None
    else if |words| == 1 then Some(p + |words[0]|)
    else Spell(s, SkipSpace(s, p + |words[0]|), words[1..])
  }

  /** Words that a run of white space cannot swallow. */
  ghost predicate Solid(words: seq<string>) {
    forall w <- words :: w != "" && !Space(w[0])
  }

  lemma {:induction false} SpellIff(s: string, p: nat, words: seq<string>, e: nat)
    requires Solid(words)
    ensures Spelled(s, p, words, e) <==> Spell(s, p, words) == Some(e)
    decreases |words|
  {
    if |words| > 1 && Word(s, p, words[0]) {
      var r := SkipSpace(s, p + |words[0]|);
      forall q: nat | p + |words[0]| <= q <= |s| && AllSpace(s, p + |words[0]|, q) && Spelled(s, q, words[1..], e)
        ensures q == r
      {
        assert words[1] in words && s[q] == words[1][0];
      }
      assert forall w <- words[1..] :: w in words;
      SpellIff(s, r, words[1..], e);
    }
  }

  /** The first `>` at or after `p`. */
  function FindClose(s: string, p: nat): (g: Option<nat>)
    requires p <= |s|
    ensures g.Some? ==> p <= g.value < |s| && s[g.value] == '>' && forall i :: p <= i < g.value ==> s[i] != '>'
    ensures g.None? ==> forall i :: p <= i < |s| ==> s[i] != '>'
    decreases |s| - p
  {
    if p == |s| then None else if s[p] == '>' then Some(p) else FindClose(s, p + 1)
  }

  function EndAt(s: string, q: nat): (e: Option<nat>)
    ensures e.Some? ==> q <= e.value <= |s|
  {
    var close := Spell(s, q, CLOSE);
    if close.Some? then close else if Spell(s, q, OPEN).Some? then Some(q) else None
  }

  /** The first place at or after `q` where a value ends. */
  function FindEnd(s: string, q: nat): (r: Option<nat>)
    requires q <= |s|
    ensures r.Some? ==> q <= r.value <= |s| && EndAt(s, r.value).Some? && forall i: nat :: q <= i < r.value ==> EndAt(s, i).None?
    ensures r.None? ==> forall i: nat :: q <= i <= |s| ==> EndAt(s, i).None?
    decreases |s| - q
  {
    if EndAt(s, q).Some? then Some(q) else if q == |s| then None else FindEnd(s, q + 1)
  }

  /** The value after the `>` at `g`, and where it ends. */
  function ValueAt(s: string, p: nat, name: string, g: nat): (m: Option<Match>)
    requires g < |s|
    ensures m.Some? ==> m.value.start == p && g < m.value.end <= |s|
  {
    var q := FindEnd(s, g + 1);
    if q.None? then None else Some(Match(p, name, s[g + 1..q.value], EndAt(s, q.value).value))
  }

  /** The name after the opening tag that ends at `e`, and its value. */
  function NameAt(s: string, p: nat, e: nat): (m: Option<Match>)
    requires e <= |s|
    ensures m.Some? ==> m.value.start == p && e < m.value.end <= |s|
  {
    var n := SkipSpace(s, e);
    var g := FindClose(s, n);
    if g.None? then None else ValueAt(s, p, s[n..g.value], g.value)
  }

  function MatchAt(s: string, p: nat): (m: Option<Match>)
    ensures m.Some? ==> m.value.start == p && p < m.value.end <= |s|
  {
    var open := Spell(s, p, OPEN);
    if open.None? then None else NameAt(s, p, open.value)
  }

  lemma TagsAreSolid()
    ensures Solid(OPEN) && Solid(CLOSE)
  {
  }

  lemma OpenIff(s: string, p: nat, e: nat)
    ensures Spelled(s, p, OPEN, e) <==> Spell(s, p, OPEN) == Some(e)
  {
    TagsAreSolid();
    SpellIff(s, p, OPEN, e);
  }

  lemma CloseIff(s: string, p: nat, e: nat)
    ensures Spelled(s, p, CLOSE, e) <==> Spell(s, p, CLOSE) == Some(e)
  {
    TagsAreSolid();
    SpellIff(s, p, CLOSE, e);
  }

  lemma EndIff(s: string, q: nat, e: nat)
    ensures Ends(s, q, e) <==> EndAt(s, q) == Some(e)
  {
    CloseIff(s, q, e);
    forall o: nat | Spelled(s, q, OPEN, o) ensures Spell(s, q, OPEN) == Some(o) {
      OpenIff(s, q, o);
    }
    if Spell(s, q, OPEN).Some? {
      OpenIff(s, q, Spell(s, q, OPEN).value);
      NotBoth(s, q);
    }
    if Spell(s, q, CLOSE).Some? {
      CloseIff(s, q, Spell(s, q, CLOSE).value);
    }
  }

  lemma NotBoth(s: string, q: nat)
    ensures Spell(s, q, OPEN).None? || Spell(s, q, CLOSE).None?
  {
    if Word(s, q, "<") {
      var r := SkipSpace(s, q + 1);
      assert Word(s, r, "/") ==> s[r] == '/';
      assert Word(s, r, "parameter") ==> s[r] == 'p';
    }
  }

  lemma SkipSpaceIs(s: string, p: nat, r: nat)
    requires p <= r < |s| && AllSpace(s, p, r) && !Space(s[r])
    ensures SkipSpace(s, p) == r
  {
  }

  lemma FindCloseIs(s: string, p: nat, g: nat)
    requires p <= g < |s| && s[g] == '>' && forall i :: p <= i < g ==> s[i] != '>'
    ensures FindClose(s, p) == Some(g)
  {
    var found := FindClose(s, p);
    assert found.Some?;
  }

  lemma FindEndIs(s: string, p: nat, q: nat, e: nat)
    requires p <= q <= |s| && Ends(s, q, e) && forall r: nat, o :: p <= r < q ==> !Ends(s, r, o)
    ensures FindEnd(s, p) == Some(q) && EndAt(s, q) == Some(e)
  {
    EndIff(s, q, e);
    forall r: nat | p <= r < q ensures EndAt(s, r).None? {
      if EndAt(s, r).Some? {
        EndIff(s, r, EndAt(s, r).value);
      }
    }
    var found := FindEnd(s, p);
    assert found.Some?;
  }

  lemma ValueComplete(s: string, m: Match, g: nat, q: nat)
    requires g < q <= |s| && m.value == s[g + 1..q]
    requires Ends(s, q, m.end) && forall r: nat, o :: g < r < q ==> !Ends(s, r, o)
    ensures ValueAt(s, m.start, m.name, g) == Some(m)
  {
    FindEndIs(s, g + 1, q, m.end);
  }

  lemma NameComplete(s: string, m: Match, e: nat, n: nat, g: nat)
    requires e <= n <= g < |s| && AllSpace(s, e, n) && !Space(s[n])
    requires s[g] == '>' && (forall i :: n <= i < g ==> s[i] != '>') && m.name == s[n..g]
    requires ValueAt(s, m.start, m.name, g) == Some(m)
    ensures NameAt(s, m.start, e) == Some(m)
  {
    SkipSpaceIs(s, e, n);
    FindCloseIs(s, n, g);
  }

  lemma ScannerComplete(s: string, m: Match, e: nat, n: nat, g: nat, q: nat)
    requires Matches(s, m, e, n, g, q)
    ensures MatchAt(s, m.start) == Some(m)
  {
    OpenIff(s, m.start, e);
    ValueComplete(s, m, g, q);
    NameComplete(s, m, e, n, g);
  }

  lemma ValueSound(s: string, p: nat, name: string, g: nat, m: Match) returns (q: nat)
    requires g < |s| && ValueAt(s, p, name, g) == Some(m)
    ensures g < q <= |s| && m.name == name && m.value == s[g + 1..q]
    ensures Ends(s, q, m.end) && forall r: nat, o :: g < r < q ==> !Ends(s, r, o)
  {
    q := FindEnd(s, g + 1).value;
    EndIff(s, q, m.end);
    forall r: nat, o | g < r < q ensures !Ends(s, r, o) {
      EndIff(s, r, o);
    }
  }

  lemma ScannerSound(s: string, m: Match)
    requires MatchAt(s, m.start) == Some(m)
    ensures IsMatch(s, m)
  {
    var e := Spell(s, m.start, OPEN).value;
    var n := SkipSpace(s, e);
    var g := FindClose(s, n).value;
    OpenIff(s, m.start, e);
    var q := ValueSound(s, m.start, s[n..g], g, m);
    assert Matches(s, m, e, n, g, q);
  }

  /** The scanner finds exactly what the expression matches. */
  lemma MatchAtIff(s: string, m: Match)
    ensures IsMatch(s, m) <==> MatchAt(s, m.start) == Some(m)
  {
    if IsMatch(s, m) {
      var e, n, g, q :| Matches(s, m, e, n, g, q);
      ScannerComplete(s, m, e, n, g, q);
    }
    if MatchAt(s, m.start) == Some(m) {
      ScannerSound(s, m);
    }
  }

  // ---------------------------------------------------------------------------------------------
  // The converter

  /** What an expression matches at each position. */
  type Attempts<T> = seq<Option<T>>

  /** The leftmost match at or after `at`. */
  function First<T>(attempts: Attempts<T>, at: nat): (m: Option<T>)
    ensures m.Some? ==> exists p: nat :: at <= p < |attempts| && attempts[p] == m && forall i :: at <= i < p ==> attempts[i].None?
    ensures m.None? ==> forall i :: at <= i < |attempts| ==> attempts[i].None?
    decreases |attempts| - at
  {
    if at >= |attempts| then None else if attempts[at].Some? then attempts[at] else First(attempts, at + 1)
  }

  ghost predicate Forward(attempts: Attempts<Match>) {
    forall p :: 0 <= p < |attempts| && attempts[p].Some? ==> p == attempts[p].value.start < attempts[p].value.end < |attempts|
  }

  function Matching(s: string): (attempts: Attempts<Match>)
    ensures |attempts| == |s| + 1 && Forward(attempts)
  {
    seq(|s| + 1, p requires 0 <= p => MatchAt(s, p))
  }

  /** `finditer`: the matches from `at` on, one after another. */
  function Found(attempts: Attempts<Match>, at: nat): seq<Match>
    requires Forward(attempts)
    decreases |attempts| - at
  {
    var m := First(attempts, at);
    if m.None? then [] else [m.value] + Found(attempts, m.value.end)
  }

  /** `sub('')`: what the matches from `at` on leave. */
  function Remaining(s: string, attempts: Attempts<Match>, at: nat): string
    requires Forward(attempts) && |attempts| == |s| + 1 && at <= |s|
    decreases |s| - at
  {
    var m := First(attempts, at);
    if m.None? then s[at..] else s[at..m.value.start] + Remaining(s, attempts, m.value.end)
  }

  function Trim(value: string): string {
    var v := if |value| > 0 && value[0] == '\n' then value[1..] else value;
    if |v| > 0 && v[|v| - 1] == '\n' then v[..|v| - 1] else v
  }

  function Put(params: Arguments, name: string, value: string): Arguments {
    if params == [] then [(name, value)]
    else if params[0].0 == name then [(name, value)] + params[1..]
    else [params[0]] + Put(params[1..], name, value)
  }

  function Collect(ms: seq<Match>, params: Arguments): Arguments
    decreases |ms|
  {
    if ms == [] then params else Collect(ms[1..], Put(params, ms[0].name, Trim(ms[0].value)))
  }

  /** `_PARTIAL_PARAM_RE` at `p`: an opening tag with a name, and everything after it. White space is
      part of the name only when the name would otherwise be empty. */
  ghost predicate IsUnfinished(s: string, p: nat, name: string, value: string, e: nat, n: nat, g: nat) {
    && Spelled(s, p, OPEN, e)
    && e <= n < g < |s| && AllSpace(s, e, n) && (Space(s[n]) ==> n + 1 == g)
    && s[g] == '>' && (forall i :: e <= i < g ==> s[i] != '>')
    && name == s[n..g] && value == s[g + 1..]
  }

  /** The name after the opening tag that ends at `e`, and the rest. */
  function UnfinishedName(s: string, e: nat): (r: Option<(string, string)>)
    requires e <= |s|
  {
    var close := FindClose(s, e);
    if close.None? || close.value == e then None
    else
      var g, n := close.value, SkipSpace(s, e);
      Some((if n < g then s[n..g] else s[g - 1..g], s[g + 1..]))
  }

  function UnfinishedAt(s: string, p: nat): Option<(string, string)> {
    var open := Spell(s, p, OPEN);
    if open.None? then None else UnfinishedName(s, open.value)
  }

  function Unfinished(s: string): (attempts: Attempts<(string, string)>)
    ensures |attempts| == |s| + 1
  {
    seq(|s| + 1, p requires 0 <= p => UnfinishedAt(s, p))
  }

  lemma UnfinishedNameIs(s: string, e: nat, n: nat, g: nat)
    requires e <= n < g < |s| && AllSpace(s, e, n) && (Space(s[n]) ==> n + 1 == g)
    requires s[g] == '>' && (forall i :: e <= i < g ==> s[i] != '>')
    ensures UnfinishedName(s, e) == Some((s[n..g], s[g + 1..]))
  {
    FindCloseIs(s, e, g);
    if Space(s[n]) {
      assert AllSpace(s, e, g);
      SkipSpaceIs(s, e, g);
    } else {
      SkipSpaceIs(s, e, n);
    }
  }

  lemma UnfinishedIs(s: string, p: nat, name: string, value: string, e: nat, n: nat, g: nat)
    requires IsUnfinished(s, p, name, value, e, n, g)
    ensures UnfinishedAt(s, p) == Some((name, value))
  {
    OpenIff(s, p, e);
    UnfinishedNameIs(s, e, n, g);
  }

  lemma UnfinishedSound(s: string, p: nat, name: string, value: string)
    requires UnfinishedAt(s, p) == Some((name, value))
    ensures exists e, n, g :: IsUnfinished(s, p, name, value, e, n, g)
  {
    var e := Spell(s, p, OPEN).value;
    OpenIff(s, p, e);
    var n, g := UnfinishedNameSound(s, e);
    assert IsUnfinished(s, p, name, value, e, n, g);
  }

  lemma UnfinishedNameSound(s: string, e: nat) returns (n: nat, g: nat)
    requires e <= |s| && UnfinishedName(s, e).Some?
    ensures e <= n < g < |s| && AllSpace(s, e, n) && (Space(s[n]) ==> n + 1 == g)
    ensures s[g] == '>' && (forall i :: e <= i < g ==> s[i] != '>')
    ensures UnfinishedName(s, e) == Some((s[n..g], s[g + 1..]))
  {
    g := FindClose(s, e).value;
    var r := SkipSpace(s, e);
    assert r <= g;
    n := if r < g then r else g - 1;
    assert AllSpace(s, e, n);
  }

  lemma UnfinishedAtIff(s: string, p: nat, name: string, value: string)
    ensures UnfinishedAt(s, p) == Some((name, value)) <==> exists e, n, g :: IsUnfinished(s, p, name, value, e, n, g)
  {
    if exists e, n, g :: IsUnfinished(s, p, name, value, e, n, g) {
      var e, n, g :| IsUnfinished(s, p, name, value, e, n, g);
      UnfinishedIs(s, p, name, value, e, n, g);
    }
    if UnfinishedAt(s, p) == Some((name, value)) {
      UnfinishedSound(s, p, name, value);
    }
  }

  function Converted(raw: string, partial: bool): Arguments {
    var params := Collect(Found(Matching(raw), 0), []);
    var last := if partial then First(Unfinished(Remaining(raw, Matching(raw), 0)), 0) else None;
    if last.None? then params else Put(params, last.value.0, Trim(last.value.1))
  }

  /** `_qwen3_arg_converter`. */
  method Convert(raw: string, partial: bool) returns (params: Arguments)
    ensures params == Converted(raw, partial)
  {
    params := [];
    var attempts := Matching(raw);
    var at := 0;
    var m := First(attempts, at);
    while m.Some?
      invariant m == First(attempts, at)
      invariant Collect(Found(attempts, at), params) == Collect(Found(attempts, 0), [])
      decreases |attempts| - at
    {
      params := Put(params, m.value.name, Trim(m.value.value));
      at := m.value.end;
      m := First(attempts, at);
    }
    if partial {
      var last := First(Unfinished(Remaining(raw, attempts, 0)), 0);
      if last.Some? {
        params := Put(params, last.value.0, Trim(last.value.1));
      }
    }
  }

  // ---------------------------------------------------------------------------------------------
  // The round trip

  function Printed(k: string, v: string): string {
    "<parameter=" + k + ">" + "\n" + v + "\n" + "</parameter>"
  }

  function Texts(args: Arguments): seq<string> {
    seq(|args|, i requires 0 <= i < |args| => Printed(args[i].0, args[i].1))
  }

  function Join(xs: seq<string>, gap: string): string {
    if xs == [] then "" else xs[0] + gap + Join(xs[1..], gap)
  }

  /** What the chat template writes, with anything but tags between the parameters. */
  function Print(args: Arguments, gap: string): string {
    Join(Texts(args), gap)
  }

  predicate IsKey(k: string) {
    (forall i :: 0 <= i < |k| ==> k[i] != '>') && (k == "" || !Space(k[0]))
  }

  /** Neither tag pattern matches anywhere. */
  predicate Untagged(v: string) {
    forall p: nat :: p <= |v| ==> EndAt(v, p).None?
  }

  /** Words no tag starts in and no tag ends in. */
  ghost predicate Inner(words: seq<string>) {
    && Solid(words)
    && forall w <- words, c <- w :: c != '<' && !Space(c)
  }

  lemma WordInside(s: string, p: nat, w: string, a: nat, v: string)
    requires a <= p <= a + |v| < |s| && s[a..a + |v|] == v && s[a + |v|] == '\n'
    requires Word(s, p, w) && w != "" && forall c <- w :: !Space(c)
    ensures p + |w| <= a + |v| && Word(v, p - a, w)
  {
    forall i | 0 <= i < |w| ensures w[i] == s[p + i] && w[i] in w {
    }
    var j := if p + |w| > a + |v| then a + |v| - p else 0;
    assert w[j] == s[p + j] && w[j] in w;
    forall i | 0 <= i < |w| ensures v[p - a + i] == w[i] {
      assert s[a..a + |v|][p - a + i] == s[p + i];
    }
    assert v[p - a..p - a + |w|] == w;
  }

  lemma Begins(s: string, p: nat, words: seq<string>)
    requires Inner(words) && exists e :: Spelled(s, p, words, e)
    ensures Word(s, p, words[0]) && words[0] != "" && s[p] != '<' && !Space(s[p])
    ensures forall c <- words[0] :: !Space(c)
    ensures Inner(words[1..])
  {
    assert words[0] in words;
    assert s[p] == s[p..p + |words[0]|][0];
    assert s[p] in words[0];
    assert forall x <- words[1..] :: x in words;
  }

  /** `v` and the beginning of what a printed parameter has after its value. */
  ghost predicate Encloses(s: string, a: nat, v: string) {
    a + |v| + 1 < |s| && s[a..a + |v|] == v && s[a + |v|] == '\n' && s[a + |v| + 1] == '<'
  }

  /** No tag crosses from a value into what follows it: after a line break and a `<`, the rest of a
      tag cannot be completed. */
  lemma {:induction false} NoCrossing(s: string, p: nat, words: seq<string>, e: nat, a: nat, v: string)
    requires Inner(words) && a <= p <= a + |v| && Encloses(s, a, v)
    requires Spelled(s, p, words, e)
    ensures e >= a && Spelled(v, p - a, words, e - a)
    decreases |words|
  {
    var w := words[0];
    Begins(s, p, words);
    WordInside(s, p, w, a, v);
    if |words| > 1 {
      var q: nat :| p + |w| <= q <= |s| && AllSpace(s, p + |w|, q) && Spelled(s, q, words[1..], e);
      Begins(s, q, words[1..]);
      SpaceInside(s, p + |w|, q, a, v);
      NoCrossing(s, q, words[1..], e, a, v);
    }
  }

  lemma SpaceInside(s: string, p: nat, q: nat, a: nat, v: string)
    requires Encloses(s, a, v) && a <= p <= a + |v| && p <= q < |s| && AllSpace(s, p, q) && !Space(s[q]) && s[q] != '<'
    ensures q < a + |v| && AllSpace(v, p - a, q - a)
  {
    assert q <= a + |v| + 1;
    forall i | p - a <= i < q - a && i < |v| ensures Space(v[i]) {
      assert s[a..a + |v|][i] == s[a + i];
    }
  }

  lemma TagInside(s: string, r: nat, words: seq<string>, e: nat, a: nat, v: string)
    requires |words| > 1 && words[0] == "<" && Inner(words[1..])
    requires Encloses(s, a, v) && a <= r <= a + |v| && Spelled(s, r, words, e)
    ensures e >= a && Spelled(v, r - a, words, e - a)
  {
    assert s[r] == s[r..r + 1][0] == '<';
    assert s[r] == s[a..a + |v|][r - a];
    assert v[r - a..r - a + 1] == "<";
    var q: nat :| r + 1 <= q <= |s| && AllSpace(s, r + 1, q) && Spelled(s, q, words[1..], e);
    Begins(s, q, words[1..]);
    SpaceInside(s, r + 1, q, a, v);
    NoCrossing(s, q, words[1..], e, a, v);
  }

  lemma TagsAreInner()
    ensures Inner(OPEN[1..]) && Inner(CLOSE[1..])
  {
    assert OPEN[1..] == ["parameter", "="];
    assert CLOSE[1..] == ["/", "parameter", ">"];
  }

  /** An untagged value does not end before its own closing tag. */
  lemma ValueHasNoEnd(s: string, a: nat, v: string, r: nat, e: nat)
    requires Encloses(s, a, v) && Untagged(v) && a <= r <= a + |v|
    ensures !Ends(s, r, e)
  {
    TagsAreInner();
    forall o: nat ensures !Spelled(s, r, CLOSE, o) && !Spelled(s, r, OPEN, o) {
      if Spelled(s, r, CLOSE, o) {
        TagInside(s, r, CLOSE, o, a, v);
        EndIff(v, r - a, o - a);
        assert false;
      }
      if Spelled(s, r, OPEN, o) {
        TagInside(s, r, OPEN, o, a, v);
        EndIff(v, r - a, r - a);
        assert false;
      }
    }
  }

  lemma Part(s: string, p: nat, t: string, i: nat, j: nat)
    requires p + |t| <= |s| && s[p..p + |t|] == t && i <= j <= |t|
    ensures s[p + i..p + j] == t[i..j]
  {
    forall k | 0 <= k < j - i ensures s[p + i..p + j][k] == t[i..j][k] {
      assert s[p..p + |t|][i + k] == s[p + i + k];
    }
  }

  lemma SpelledOne(s: string, p: nat, w: string)
    requires Word(s, p, w)
    ensures Spelled(s, p, [w], p + |w|)
  {
  }

  lemma SpelledStep(s: string, p: nat, w: string, rest: seq<string>, e: nat)
    requires Word(s, p, w) && rest != [] && Spelled(s, p + |w|, rest, e)
    ensures Spelled(s, p, [w] + rest, e)
  {
    assert ([w] + rest)[1..] == rest;
    assert AllSpace(s, p + |w|, p + |w|);
  }

  lemma WordSplit(s: string, p: nat, a: string, b: string)
    requires Word(s, p, a + b)
    ensures Word(s, p, a) && Word(s, p + |a|, b)
  {
    Part(s, p, a + b, 0, |a|);
    Part(s, p, a + b, |a|, |a + b|);
    assert (a + b)[0..|a|] == a && (a + b)[|a|..|a + b|] == b;
  }

  lemma TagTexts()
    ensures "<parameter=" == "<" + ("parameter" + "=")
    ensures "</parameter>" == "<" + ("/" + ("parameter" + ">"))
  {
  }

  lemma PlainOpen(s: string, p: nat)
    requires Word(s, p, "<parameter=")
    ensures Spelled(s, p, OPEN, p + 11)
  {
    TagTexts();
    WordSplit(s, p, "<", "parameter" + "=");
    WordSplit(s, p + 1, "parameter", "=");
    SpelledOne(s, p + 10, "=");
    SpelledStep(s, p + 1, "parameter", ["="], p + 11);
    SpelledStep(s, p, "<", ["parameter"] + ["="], p + 11);
    assert ["<"] + (["parameter"] + ["="]) == OPEN;
  }

  lemma PlainClose(s: string, p: nat)
    requires Word(s, p, "</parameter>")
    ensures Spelled(s, p, CLOSE, p + 12)
  {
    TagTexts();
    WordSplit(s, p, "<", "/" + ("parameter" + ">"));
    WordSplit(s, p + 1, "/", "parameter" + ">");
    WordSplit(s, p + 2, "parameter", ">");
    SpelledOne(s, p + 11, ">");
    SpelledStep(s, p + 2, "parameter", [">"], p + 12);
    SpelledStep(s, p + 1, "/", ["parameter"] + [">"], p + 12);
    SpelledStep(s, p, "<", ["/"] + (["parameter"] + [">"]), p + 12);
    assert ["<"] + (["/"] + (["parameter"] + [">"])) == CLOSE;
  }

  /** Where the parts of a printed parameter are in the text around it. */
  ghost predicate Laid(s: string, p: nat, k: string, v: string) {
    var e := p + 11;
    var g := e + |k|;
    var a := g + 2;
    && a + |v| + 13 <= |s|
    && Word(s, p, "<parameter=") && s[e..g] == k && s[g] == '>' && s[g + 1] == '\n'
    && s[a..a + |v|] == v && s[a + |v|] == '\n' && Word(s, a + |v| + 1, "</parameter>")
  }

  lemma FiveParts(pre: string, a: string, b: string, c: string, d: string, e: string, rest: string)
    ensures
      var s := pre + (a + b + c + d + e) + rest;
      var i := |pre| + |a|;
      var j := i + |b|;
      var k := j + |c|;
      var l := k + |d|;
      && s[|pre|..i] == a && s[i..j] == b && s[j..k] == c && s[k..l] == d && s[l..l + |e|] == e
  {
    var s := pre + (a + b + c + d + e) + rest;
    assert s == pre + a + (b + c + d + e + rest);
    assert s == (pre + a) + b + (c + d + e + rest);
    assert s == (pre + a + b) + c + (d + e + rest);
    assert s == (pre + a + b + c) + d + (e + rest);
    assert s == (pre + a + b + c + d) + e + rest;
  }

  lemma SevenParts(pre: string, a: string, b: string, c: string, d: string, e: string, f: string, g: string, rest: string)
    ensures
      var s := pre + (a + b + c + d + e + f + g) + rest;
      var i := |pre| + |a|;
      var j := i + |b|;
      var k := j + |c|;
      var l := k + |d|;
      var m := l + |e|;
      var n := m + |f|;
      && s[|pre|..i] == a && s[i..j] == b && s[j..k] == c && s[k..l] == d && s[l..m] == e && s[m..n] == f
      && s[n..n + |g|] == g
  {
    var s := pre + (a + b + c + d + e + f + g) + rest;
    assert s == pre + (a + b + c + d + e) + (f + g + rest);
    FiveParts(pre, a, b, c, d, e, f + g + rest);
    var head := pre + (a + b + c + d + e);
    assert s == head + f + (g + rest);
    assert s == (head + f) + g + rest;
  }

  lemma LayOut(pre: string, k: string, v: string, rest: string)
    ensures Laid(pre + Printed(k, v) + rest, |pre|, k, v)
  {
    var s := pre + Printed(k, v) + rest;
    SevenParts(pre, "<parameter=", k, ">", "\n", v, "\n", "</parameter>", rest);
    var g, c := |pre| + 11 + |k|, |pre| + 13 + |k| + |v|;
    assert s[g] == s[g..g + 1][0] && s[g + 1] == s[g + 1..g + 2][0] && s[c] == s[c..c + 1][0];
  }

  lemma PrintedEnd(s: string, p: nat, k: string, v: string)
    requires Laid(s, p, k, v) && Untagged(v)
    ensures
      var g := p + 11 + |k|;
      var q := g + 3 + |v|;
      Ends(s, q, q + 12) && forall r: nat, o: nat :: g < r < q ==> !Ends(s, r, o)
  {
    var g := p + 11 + |k|;
    var a := g + 2;
    var q := a + |v| + 1;
    PlainClose(s, q);
    assert s[q] == s[q..q + 12][0];
    forall r: nat, o: nat | g < r < q ensures !Ends(s, r, o) {
      if r == g + 1 {
        NoTagAt(s, r, o);
      } else {
        ValueHasNoEnd(s, a, v, r, o);
      }
    }
  }

  lemma PrintedNameAndValue(s: string, p: nat, k: string, v: string)
    requires Laid(s, p, k, v) && IsKey(k)
    ensures
      var e := p + 11;
      var g := e + |k|;
      var q := g + 3 + |v|;
      && !Space(s[e]) && (forall i :: e <= i < g ==> s[i] != '>')
      && s[g + 1..q] == "\n" + v + "\n" && q + 12 == p + |Printed(k, v)|
  {
    var e := p + 11;
    var g := e + |k|;
    var q := g + 3 + |v|;
    forall i | e <= i < g ensures s[i] == k[i - e] {
      assert s[e..g][i - e] == s[i];
    }
    SliceInThree(s, g + 1, g + 2, g + 2 + |v|, q);
    OneChar(s, g + 1);
    OneChar(s, q - 1);
  }

  lemma SliceInThree(s: string, i: nat, j: nat, k: nat, l: nat)
    requires i <= j <= k <= l <= |s|
    ensures s[i..l] == s[i..j] + s[j..k] + s[k..l]
  {
  }

  lemma OneChar(s: string, i: nat)
    requires i < |s|
    ensures s[i..i + 1] == [s[i]]
  {
  }

  function WholeMatch(p: nat, k: string, v: string): Match {
    Match(p, k, "\n" + v + "\n", p + |Printed(k, v)|)
  }

  lemma PrintedMatches(s: string, p: nat, k: string, v: string)
    requires Laid(s, p, k, v) && IsKey(k) && Untagged(v)
    ensures
      var e := p + 11;
      var g := e + |k|;
      Matches(s, WholeMatch(p, k, v), e, e, g, g + 3 + |v|)
  {
    var e := p + 11;
    var g := e + |k|;
    PlainOpen(s, p);
    PrintedEnd(s, p, k, v);
    PrintedNameAndValue(s, p, k, v);
    assert AllSpace(s, e, e);
  }

  /** A printed parameter is matched as a whole. */
  lemma PrintedMatch(s: string, p: nat, k: string, v: string)
    requires Laid(s, p, k, v) && IsKey(k) && Untagged(v)
    ensures MatchAt(s, p) == Some(WholeMatch(p, k, v))
  {
    var g := p + 11 + |k|;
    PrintedMatches(s, p, k, v);
    ScannerComplete(s, WholeMatch(p, k, v), p + 11, p + 11, g, g + 3 + |v|);
  }

  lemma NoTagAt(s: string, r: nat, o: nat)
    requires r < |s| && s[r] != '<'
    ensures !Ends(s, r, o) && MatchAt(s, r).None? && UnfinishedAt(s, r).None?
  {
    assert s[r..r + 1] == [s[r]];
  }

  lemma {:induction false} SkipNone<T>(attempts: Attempts<T>, at: nat, to: nat)
    requires at <= to <= |attempts| && forall i :: at <= i < to ==> attempts[i].None?
    ensures First(attempts, at) == First(attempts, to)
    decreases |attempts| - at
  {
    if at < to {
      SkipNone(attempts, at + 1, to);
    }
  }

  lemma SkipToMatch(s: string, attempts: Attempts<Match>, at: nat, to: nat)
    requires Forward(attempts) && |attempts| == |s| + 1
    requires at <= to <= |s| && forall i :: at <= i < to ==> attempts[i].None?
    ensures Found(attempts, at) == Found(attempts, to)
    ensures Remaining(s, attempts, at) == s[at..to] + Remaining(s, attempts, to)
  {
    SkipNone(attempts, at, to);
    var m := First(attempts, to);
    if m.Some? {
      Slices(s, at, to, m.value.start, Remaining(s, attempts, m.value.end));
    } else {
      Slices(s, at, to, |s|, "");
      Tail(s, at);
      Tail(s, to);
    }
  }

  lemma Slices(s: string, i: nat, j: nat, k: nat, rest: string)
    requires i <= j <= k <= |s|
    ensures s[i..k] + rest == s[i..j] + (s[j..k] + rest)
  {
    assert s[i..k] == s[i..j] + s[j..k];
  }

  lemma Tail(s: string, i: nat)
    requires i <= |s|
    ensures s[i..] == s[i..|s|] + ""
  {
  }

  predicate NoTags(gap: string) {
    '<' !in gap
  }

  lemma TrimPrinted(v: string)
    ensures Trim("\n" + v + "\n") == v
  {
    assert ("\n" + v + "\n")[1..] == v + "\n";
  }

  lemma {:induction false} PutNew(params: Arguments, k: string, v: string)
    requires forall b <- params :: b.0 != k
    ensures Put(params, k, v) == params + [(k, v)]
    decreases |params|
  {
    if params != [] {
      PutNew(params[1..], k, v);
    }
  }

  /** What separates the parameters, once they are taken out. */
  function Gaps(n: nat, gap: string): string {
    if n == 0 then "" else gap + Gaps(n - 1, gap)
  }

  lemma {:induction false} GapsHaveNoTags(n: nat, gap: string)
    requires NoTags(gap)
    ensures NoTags(Gaps(n, gap))
  {
    if n > 0 {
      GapsHaveNoTags(n - 1, gap);
    }
  }

  /** From `p` on, the attempts give these matches, with nothing in the gap after each. */
  ghost predicate Listed(attempts: Attempts<Match>, p: nat, ms: seq<Match>, gap: nat)
    decreases |ms|
  {
    ms == [] ||
    (&& p < |attempts| && ms[0].end + gap < |attempts| && attempts[p] == Some(ms[0])
     && (forall i :: ms[0].end <= i < ms[0].end + gap ==> attempts[i].None?)
     && Listed(attempts, ms[0].end + gap, ms[1..], gap))
  }

  /** Where a list of matches and gaps ends. */
  function EndOf(p: nat, ms: seq<Match>, gap: nat): nat
    decreases |ms|
  {
    if ms == [] then p else EndOf(ms[0].end + gap, ms[1..], gap)
  }

  lemma FoundStep(attempts: Attempts<Match>, p: nat, m: Match, next: nat)
    requires Forward(attempts) && p < |attempts| && attempts[p] == Some(m)
    requires m.end <= next <= |attempts| && forall i :: m.end <= i < next ==> attempts[i].None?
    ensures Found(attempts, p) == [m] + Found(attempts, next)
  {
    SkipNone(attempts, m.end, next);
  }

  lemma {:induction false} FoundListed(attempts: Attempts<Match>, p: nat, ms: seq<Match>, gap: nat)
    requires Forward(attempts) && Listed(attempts, p, ms, gap)
    requires First(attempts, EndOf(p, ms, gap)).None?
    ensures Found(attempts, p) == ms
    decreases |ms|
  {
    if ms != [] {
      FoundStep(attempts, p, ms[0], ms[0].end + gap);
      FoundListed(attempts, ms[0].end + gap, ms[1..], gap);
    }
  }

  function Readings(ms: seq<Match>): Arguments {
    if ms == [] then [] else [(ms[0].name, Trim(ms[0].value))] + Readings(ms[1..])
  }

  /** No name twice, and none that is there already. */
  ghost predicate Fresh(args: Arguments, params: Arguments) {
    && (forall i, j :: 0 <= i < j < |args| ==> args[i].0 != args[j].0)
    && (forall a <- args, b <- params :: a.0 != b.0)
  }

  lemma RestIsFresh(args: Arguments, params: Arguments)
    requires Fresh(args, params) && args != []
    ensures Fresh(args[1..], params + [args[0]])
    ensures Put(params, args[0].0, args[0].1) == params + [args[0]]
    ensures params + [args[0]] + args[1..] == params + args
  {
    assert args[0] in args;
    PutNew(params, args[0].0, args[0].1);
    StillFresh(args, params);
    MoveFirst(params, args);
  }

  lemma MoveFirst(params: Arguments, args: Arguments)
    requires args != []
    ensures params + [args[0]] + args[1..] == params + args
  {
  }

  lemma StillFresh(args: Arguments, params: Arguments)
    requires Fresh(args, params) && args != []
    ensures Fresh(args[1..], params + [args[0]])
  {
    assert forall a <- args[1..] :: a in args;
    forall a <- args[1..], b <- params + [args[0]] ensures a.0 != b.0 {
      var i :| 0 <= i < |args[1..]| && args[1..][i] == a;
      assert args[i + 1] == a && args[0].0 != args[i + 1].0;
    }
  }

  /** One after the other into a dictionary. */
  function PutAll(params: Arguments, args: Arguments): Arguments
    decreases |args|
  {
    if args == [] then params else PutAll(Put(params, args[0].0, args[0].1), args[1..])
  }

  lemma {:induction false} CollectPutsAll(ms: seq<Match>, params: Arguments)
    ensures Collect(ms, params) == PutAll(params, Readings(ms))
    decreases |ms|
  {
    if ms != [] {
      CollectPutsAll(ms[1..], Put(params, ms[0].name, Trim(ms[0].value)));
      assert Readings(ms)[1..] == Readings(ms[1..]);
    }
  }

  /** Distinct keys end up in the dictionary in the order they were found in. */
  lemma {:induction false} PutAllFresh(args: Arguments, params: Arguments)
    requires Fresh(args, params)
    ensures PutAll(params, args) == params + args
    decreases |args|
  {
    if args != [] {
      RestIsFresh(args, params);
      PutAllFresh(args[1..], params + [args[0]]);
    }
  }

  /** The value under a name. */
  function Lookup(params: Arguments, name: string): Option<string> {
    if params == [] then None
    else if params[0].0 == name then Some(params[0].1)
    else Lookup(params[1..], name)
  }

  /** The last value written under a name. */
  function LastValue(args: Arguments, name: string): Option<string> {
    if args == [] then None
    else if args[|args| - 1].0 == name then Some(args[|args| - 1].1)
    else LastValue(args[..|args| - 1], name)
  }

  function Names(args: Arguments): seq<string> {
    if args == [] then [] else [args[0].0] + Names(args[1..])
  }

  /** The names in the order in which each was written first. */
  function FirstNames(args: Arguments): seq<string> {
    if args == [] then []
    else
      var most, name := FirstNames(args[..|args| - 1]), args[|args| - 1].0;
      if name in most then most else most + [name]
  }

  lemma {:induction false} PutIs(params: Arguments, k: string, v: string, name: string)
    ensures Lookup(Put(params, k, v), name) == if name == k then Some(v) else Lookup(params, name)
    ensures Names(Put(params, k, v)) == if k in Names(params) then Names(params) else Names(params) + [k]
    decreases |params|
  {
    if params != [] {
      PutIs(params[1..], k, v, name);
      assert Names(params) == [params[0].0] + Names(params[1..]);
      PutRest(params, k, v);
    }
  }

  lemma PutRest(params: Arguments, k: string, v: string)
    requires params != []
    ensures
      var t := Put(params, k, v);
      && t != [] && t[0].0 == params[0].0
      && if params[0].0 == k then t[0].1 == v && t[1..] == params[1..] else t[0] == params[0] && t[1..] == Put(params[1..], k, v)
  {
  }

  lemma {:induction false} PutAllOneMore(params: Arguments, args: Arguments, a: (string, string))
    ensures PutAll(params, args + [a]) == Put(PutAll(params, args), a.0, a.1)
    decreases |args|
  {
    if args == [] {
      assert [a][1..] == [] && args + [a] == [a];
    } else {
      assert (args + [a])[1..] == args[1..] + [a];
      PutAllOneMore(Put(params, args[0].0, args[0].1), args[1..], a);
    }
  }

  /** A name that is written again keeps its place and takes the last value. */
  lemma {:induction false} PutAllIs(args: Arguments, name: string)
    ensures Lookup(PutAll([], args), name) == LastValue(args, name)
    ensures Names(PutAll([], args)) == FirstNames(args)
    decreases |args|
  {
    if args != [] {
      var most, last := args[..|args| - 1], args[|args| - 1];
      PutAllIs(most, name);
      assert most + [last] == args;
      PutAllOneMore([], most, last);
      PutIs(PutAll([], most), last.0, last.1, name);
    }
  }

  /** One line break is taken off at either end, if it is there, and nothing else. */
  lemma TrimIs(core: string, before: bool, after: bool)
    requires !before ==> core == "" || core[0] != '\n'
    requires !after ==> core == "" || core[|core| - 1] != '\n'
    ensures core != "" || (before && after) ==>
              Trim((if before then "\n" else "") + core + (if after then "\n" else "")) == core
  {
    var v := (if before then "\n" else "") + core + (if after then "\n" else "");
    if before {
      assert v[1..] == core + (if after then "\n" else "");
    } else {
      assert v == core + (if after then "\n" else "");
    }
    if after {
      assert (core + "\n")[..|core|] == core;
    } else {
      assert core + "" == core;
    }
  }

  /** What printed parameters leave when they are taken out of the text. */
  lemma {:induction false} RemainingListed(s: string, attempts: Attempts<Match>, p: nat, ms: seq<Match>, gap: string)
    requires Forward(attempts) && |attempts| == |s| + 1 && p <= |s| && Listed(attempts, p, ms, |gap|)
    requires First(attempts, EndOf(p, ms, |gap|)).None?
    requires Spaced(s, ms, gap)
    ensures EndOf(p, ms, |gap|) <= |s|
    ensures Remaining(s, attempts, p) == Gaps(|ms|, gap) + s[EndOf(p, ms, |gap|)..]
    decreases |ms|
  {
    if ms == [] {
      Associate(s[p..], "", "");
    } else {
      var next := ms[0].end + |gap|;
      RemainingListed(s, attempts, next, ms[1..], gap);
      assert EndOf(p, ms, |gap|) == EndOf(next, ms[1..], |gap|);
      RemainingStep(s, attempts, p, ms[0], next);
      Associate(gap, Gaps(|ms| - 1, gap), s[EndOf(p, ms, |gap|)..]);
    }
  }

  lemma RemainingStep(s: string, attempts: Attempts<Match>, p: nat, m: Match, next: nat)
    requires Forward(attempts) && |attempts| == |s| + 1 && p <= |s| && attempts[p] == Some(m)
    requires m.end <= next <= |s| && forall i :: m.end <= i < next ==> attempts[i].None?
    ensures Remaining(s, attempts, p) == s[m.end..next] + Remaining(s, attempts, next)
  {
    SkipToMatch(s, attempts, m.end, next);
    Associate(Remaining(s, attempts, m.end), "", "");
    assert s[p..p] == "";
  }

  lemma Associate(a: string, b: string, c: string)
    ensures a + (b + c) == (a + b) + c && "" + a == a
  {
  }

  /** After each match comes the gap. */
  ghost predicate Spaced(s: string, ms: seq<Match>, gap: string)
    decreases |ms|
  {
    ms == [] || (ms[0].end + |gap| <= |s| && s[ms[0].end..ms[0].end + |gap|] == gap && Spaced(s, ms[1..], gap))
  }

  ghost predicate Records(attempts: Attempts<Match>, s: string) {
    |attempts| == |s| + 1 && Forward(attempts) && forall p: nat {:trigger MatchAt(s, p)} :: p <= |s| ==> attempts[p] == MatchAt(s, p)
  }

  lemma MatchingRecords(s: string)
    ensures Records(Matching(s), s)
  {
  }

  lemma ThreeParts(s: string, p: nat, x: string, gap: string, rest: string)
    requires p <= |s| && s[p..] == x + gap + rest
    ensures
      var end := p + |x|;
      var next := end + |gap|;
      next <= |s| && s == s[..p] + x + (gap + rest) && s[end..next] == gap && s[next..] == rest
  {
    var t := s[p..];
    assert s == s[..p] + t;
    assert t == x + (gap + rest);
    assert s[p + |x|..] == t[|x|..] == gap + rest;
    assert s[p + |x| + |gap|..] == t[|x| + |gap|..] == rest;
    Part(s, p, t, |x|, |x| + |gap|);
  }

  lemma GapHasNoMatch(s: string, attempts: Attempts<Match>, from: nat, to: nat)
    requires Records(attempts, s) && from <= to <= |s| && NoTags(s[from..to])
    ensures forall i :: from <= i < to ==> attempts[i].None?
  {
    forall i: nat | from <= i < to ensures attempts[i].None? {
      assert s[i] == s[from..to][i - from] && s[i] in s[from..to];
      NoTagAt(s, i, 0);
    }
  }

  lemma PrintedAttempt(s: string, attempts: Attempts<Match>, p: nat, k: string, v: string, rest: string)
    requires Records(attempts, s) && p <= |s| && s == s[..p] + Printed(k, v) + rest
    requires IsKey(k) && Untagged(v)
    ensures attempts[p] == Some(WholeMatch(p, k, v))
  {
    LayOut(s[..p], k, v, rest);
    PrintedMatch(s, p, k, v);
  }

  /** The matches of texts that are read as these names and raw values. */
  function MatchesOf(p: nat, xs: seq<string>, raws: Arguments, gap: nat): seq<Match>
    requires |xs| == |raws|
    decreases |xs|
  {
    if xs == [] then []
    else [Match(p, raws[0].0, raws[0].1, p + |xs[0]|)] + MatchesOf(p + |xs[0]| + gap, xs[1..], raws[1..], gap)
  }

  function Raws(args: Arguments): Arguments {
    seq(|args|, i requires 0 <= i < |args| => (args[i].0, "\n" + args[i].1 + "\n"))
  }

  lemma {:induction false} ReadingsOfPrinted(p: nat, xs: seq<string>, args: Arguments, gap: nat)
    requires |xs| == |args|
    ensures Readings(MatchesOf(p, xs, Raws(args), gap)) == args
    ensures |MatchesOf(p, xs, Raws(args), gap)| == |args|
    decreases |args|
  {
    if args != [] {
      TrimPrinted(args[0].1);
      assert Raws(args)[1..] == Raws(args[1..]);
      ReadingsOfPrinted(p + |xs[0]| + gap, xs[1..], args[1..], gap);
    }
  }

  /** The texts, each followed by the gap, begin at `p`. */
  ghost predicate Written(s: string, p: nat, xs: seq<string>, gap: string)
    decreases |xs|
  {
    xs == [] ||
    var end := p + |xs[0]|;
    && end + |gap| <= |s| && s[p..end] == xs[0] && s[end..end + |gap|] == gap
    && Written(s, end + |gap|, xs[1..], gap)
  }

  function After(p: nat, xs: seq<string>, gap: nat): nat
    decreases |xs|
  {
    if xs == [] then p else After(p + |xs[0]| + gap, xs[1..], gap)
  }

  lemma {:induction false} JoinIsWritten(s: string, p: nat, xs: seq<string>, gap: string, tail: string)
    requires p <= |s| && s[p..] == Join(xs, gap) + tail
    ensures Written(s, p, xs, gap) && After(p, xs, |gap|) == |s| - |tail|
    decreases |xs|
  {
    if xs != [] {
      var rest := Join(xs[1..], gap) + tail;
      Associate4(xs[0], gap, Join(xs[1..], gap), tail);
      ThreeParts(s, p, xs[0], gap, rest);
      assert s[p..p + |xs[0]|] == s[p..][..|xs[0]|] == xs[0];
      JoinIsWritten(s, p + |xs[0]| + |gap|, xs[1..], gap, tail);
    }
  }

  lemma Associate4(a: string, b: string, c: string, d: string)
    ensures a + b + c + d == a + b + (c + d)
  {
  }

  /** Wherever the text occurs, it is matched as a whole. */
  ghost predicate ReadAs(s: string, attempts: Attempts<Match>, x: string, name: string, value: string) {
    forall b: nat :: b + |x| <= |s| < |attempts| && s[b..b + |x|] == x ==> attempts[b] == Some(Match(b, name, value, b + |x|))
  }

  lemma PrintedIsReadAs(s: string, attempts: Attempts<Match>, k: string, v: string)
    requires Records(attempts, s) && IsKey(k) && Untagged(v)
    ensures ReadAs(s, attempts, Printed(k, v), k, "\n" + v + "\n")
  {
    var x := Printed(k, v);
    forall b: nat | b + |x| <= |s| && s[b..b + |x|] == x
      ensures attempts[b] == Some(Match(b, k, "\n" + v + "\n", b + |x|))
    {
      assert s == s[..b] + s[b..b + |x|] + s[b + |x|..];
      PrintedAttempt(s, attempts, b, k, v, s[b + |x|..]);
    }
  }

  /** Every text is read as the name and value beside it. */
  ghost predicate AllReadAs(s: string, attempts: Attempts<Match>, xs: seq<string>, raws: Arguments)
    requires |xs| == |raws|
    decreases |xs|
  {
    xs == [] || (ReadAs(s, attempts, xs[0], raws[0].0, raws[0].1) && AllReadAs(s, attempts, xs[1..], raws[1..]))
  }

  lemma FirstIsListed(s: string, attempts: Attempts<Match>, p: nat, x: string, m: Match, gap: string)
    requires Records(attempts, s) && NoTags(gap) && ReadAs(s, attempts, x, m.name, m.value)
    requires m.start == p && m.end == p + |x| && m.end + |gap| <= |s|
    requires s[p..m.end] == x && s[m.end..m.end + |gap|] == gap
    ensures attempts[p] == Some(m) && forall i :: m.end <= i < m.end + |gap| ==> attempts[i].None?
  {
    GapHasNoMatch(s, attempts, m.end, m.end + |gap|);
  }

  lemma WrittenIsListed(s: string, attempts: Attempts<Match>, p: nat, xs: seq<string>, raws: Arguments, gap: string)
    requires Records(attempts, s) && NoTags(gap) && |xs| == |raws| && AllReadAs(s, attempts, xs, raws)
    requires Written(s, p, xs, gap)
    ensures
      var ms := MatchesOf(p, xs, raws, |gap|);
      Listed(attempts, p, ms, |gap|) && Spaced(s, ms, gap) && EndOf(p, ms, |gap|) == After(p, xs, |gap|)
  {
    WrittenMatches(s, attempts, p, xs, raws, gap);
    WrittenGaps(s, p, xs, raws, gap);
    WrittenEnd(p, xs, raws, |gap|);
  }

  lemma {:induction false} WrittenMatches(s: string, attempts: Attempts<Match>, p: nat, xs: seq<string>, raws: Arguments, gap: string)
    requires Records(attempts, s) && NoTags(gap) && |xs| == |raws| && AllReadAs(s, attempts, xs, raws)
    requires Written(s, p, xs, gap)
    ensures Listed(attempts, p, MatchesOf(p, xs, raws, |gap|), |gap|)
    decreases |xs|
  {
    if xs != [] {
      var m := Match(p, raws[0].0, raws[0].1, p + |xs[0]|);
      var next := m.end + |gap|;
      FirstIsListed(s, attempts, p, xs[0], m, gap);
      WrittenMatches(s, attempts, next, xs[1..], raws[1..], gap);
      ConsListed(attempts, p, m, MatchesOf(next, xs[1..], raws[1..], |gap|), |gap|);
    }
  }

  lemma {:induction false} WrittenGaps(s: string, p: nat, xs: seq<string>, raws: Arguments, gap: string)
    requires |xs| == |raws| && Written(s, p, xs, gap)
    ensures Spaced(s, MatchesOf(p, xs, raws, |gap|), gap)
    decreases |xs|
  {
    if xs != [] {
      var m := Match(p, raws[0].0, raws[0].1, p + |xs[0]|);
      WrittenGaps(s, m.end + |gap|, xs[1..], raws[1..], gap);
      ConsSpaced(s, m, MatchesOf(m.end + |gap|, xs[1..], raws[1..], |gap|), gap);
    }
  }

  lemma {:induction false} WrittenEnd(p: nat, xs: seq<string>, raws: Arguments, gap: nat)
    requires |xs| == |raws|
    ensures EndOf(p, MatchesOf(p, xs, raws, gap), gap) == After(p, xs, gap)
    decreases |xs|
  {
    if xs != [] {
      var m := Match(p, raws[0].0, raws[0].1, p + |xs[0]|);
      WrittenEnd(m.end + gap, xs[1..], raws[1..], gap);
      ConsEnd(p, m, MatchesOf(m.end + gap, xs[1..], raws[1..], gap), gap);
    }
  }

  lemma Rest(m: Match, ms: seq<Match>)
    ensures ([m] + ms)[0] == m && ([m] + ms)[1..] == ms
  {
  }

  lemma ConsListed(attempts: Attempts<Match>, p: nat, m: Match, ms: seq<Match>, gap: nat)
    requires p < |attempts| && attempts[p] == Some(m) && m.end + gap < |attempts|
    requires forall i :: m.end <= i < m.end + gap ==> attempts[i].None?
    requires Listed(attempts, m.end + gap, ms, gap)
    ensures Listed(attempts, p, [m] + ms, gap)
  {
    Rest(m, ms);
  }

  lemma ConsSpaced(s: string, m: Match, ms: seq<Match>, gap: string)
    requires m.end + |gap| <= |s| && s[m.end..m.end + |gap|] == gap && Spaced(s, ms, gap)
    ensures Spaced(s, [m] + ms, gap)
  {
    Rest(m, ms);
  }

  lemma ConsEnd(p: nat, m: Match, ms: seq<Match>, gap: nat)
    ensures EndOf(p, [m] + ms, gap) == EndOf(m.end + gap, ms, gap)
  {
    Rest(m, ms);
  }

  ghost predicate Printable(args: Arguments) {
    forall a <- args :: IsKey(a.0) && Untagged(a.1)
  }

  lemma {:induction false} TextsAreRead(s: string, attempts: Attempts<Match>, args: Arguments)
    requires Records(attempts, s) && forall a <- args :: IsKey(a.0) && Untagged(a.1)
    ensures AllReadAs(s, attempts, Texts(args), Raws(args))
    decreases |args|
  {
    if args != [] {
      assert args[0] in args && forall a <- args[1..] :: a in args;
      PrintedIsReadAs(s, attempts, args[0].0, args[0].1);
      TextsAreRead(s, attempts, args[1..]);
      assert Texts(args)[1..] == Texts(args[1..]) && Raws(args)[1..] == Raws(args[1..]);
    }
  }

  lemma Suffix(s: string, x: string, tail: string)
    requires s == x + tail
    ensures s[0..] == s && s[|s| - |tail|..] == tail
  {
  }

  /** Printed parameters are all found, and only what separates them is left, whatever text follows
      in which nothing matches. */
  lemma PrintedIsRead(s: string, attempts: Attempts<Match>, args: Arguments, gap: string, tail: string)
    requires Printable(args) && NoTags(gap) && s == Print(args, gap) + tail && Records(attempts, s)
    requires First(attempts, |s| - |tail|).None?
    ensures Collect(Found(attempts, 0), []) == PutAll([], args)
    ensures Remaining(s, attempts, 0) == Gaps(|args|, gap) + tail
  {
    TextsAreRead(s, attempts, args);
    Suffix(s, Print(args, gap), tail);
    JoinedIsRead(s, attempts, Texts(args), args, gap, tail);
  }

  lemma JoinedIsRead(s: string, attempts: Attempts<Match>, xs: seq<string>, args: Arguments, gap: string, tail: string)
    requires Records(attempts, s) && NoTags(gap) && |xs| == |args|
    requires AllReadAs(s, attempts, xs, Raws(args))
    requires s[0..] == Join(xs, gap) + tail
    requires |tail| <= |s| && s[|s| - |tail|..] == tail && First(attempts, |s| - |tail|).None?
    ensures Collect(Found(attempts, 0), []) == PutAll([], args)
    ensures Remaining(s, attempts, 0) == Gaps(|args|, gap) + tail
  {
    var ms := MatchesOf(0, xs, Raws(args), |gap|);
    JoinIsWritten(s, 0, xs, gap, tail);
    WrittenIsListed(s, attempts, 0, xs, Raws(args), gap);
    ReadingsOfPrinted(0, xs, args, |gap|);
    FoundListed(attempts, 0, ms, |gap|);
    CollectPutsAll(ms, []);
    RemainingListed(s, attempts, 0, ms, gap);
  }

  lemma NothingAtEnd(s: string)
    ensures First(Matching(s), |s|).None? && UnfinishedAt(s, |s|).None?
  {
    MatchingRecords(s);
    assert MatchAt(s, |s|).None?;
  }

  lemma NothingUnfinished(s: string)
    requires NoTags(s)
    ensures First(Unfinished(s), 0).None?
  {
    var attempts := Unfinished(s);
    forall p: nat | p < |attempts| ensures attempts[p].None? {
      NothingAtEnd(s);
      if p < |s| {
        NoTagAt(s, p, 0);
      }
    }
  }

  /** The converter undoes the template: for every list of parameters, whatever line breaks their values
      begin or end with, and whether or not the call is complete; a key that is written again keeps its
      place and takes the last value, and distinct keys give back the list itself. */
  lemma RoundTrip(args: Arguments, gap: string, partial: bool)
    requires Printable(args) && NoTags(gap)
    ensures Converted(Print(args, gap), partial) == PutAll([], args)
    ensures Fresh(args, []) ==> Converted(Print(args, gap), partial) == args
  {
    var s := Print(args, gap);
    NothingAtEnd(s);
    Associate(s, "", "");
    MatchingRecords(s);
    PrintedIsRead(s, Matching(s), args, gap, "");
    GapsHaveNoTags(|args|, gap);
    NothingUnfinished(Gaps(|args|, gap) + "");
    if Fresh(args, []) {
      PutAllFresh(args, []);
      assert [] + args == args;
    }
  }

  lemma WordInSuffix(s: string, t: string, b: nat, q: nat, w: string)
    requires b <= q && b <= |s| && t == s[b..] && Word(s, q, w)
    ensures Word(t, q - b, w)
  {
  }

  lemma SpaceInSuffix(s: string, t: string, b: nat, i: nat, j: nat)
    requires b <= i <= j <= |s| && t == s[b..] && AllSpace(s, i, j)
    ensures AllSpace(t, i - b, j - b)
  {
  }

  lemma {:induction false} SpelledInSuffix(s: string, t: string, q: nat, words: seq<string>, e: nat, b: nat)
    requires Spelled(s, q, words, e) && b <= q && b <= |s| && t == s[b..]
    ensures b <= e && Spelled(t, q - b, words, e - b)
    decreases |words|
  {
    var w := words[0];
    WordInSuffix(s, t, b, q, w);
    if |words| > 1 {
      var r: nat :| q + |w| <= r <= |s| && AllSpace(s, q + |w|, r) && Spelled(s, r, words[1..], e);
      SpelledInSuffix(s, t, r, words[1..], e, b);
      SpaceInSuffix(s, t, b, q + |w|, r);
      SpelledOn(t, q - b, words, r - b, e - b);
    }
  }

  lemma NoEndInSuffix(s: string, b: nat, q: nat, e: nat)
    requires b <= q && b <= |s| && q <= |s| && Untagged(s[b..])
    ensures !Ends(s, q, e)
  {
    forall o: nat ensures !Spelled(s, q, CLOSE, o) && !Spelled(s, q, OPEN, o) {
      if Spelled(s, q, CLOSE, o) {
        SpelledInSuffix(s, s[b..], q, CLOSE, o, b);
        EndIff(s[b..], q - b, o - b);
        assert false;
      }
      if Spelled(s, q, OPEN, o) {
        SpelledInSuffix(s, s[b..], q, OPEN, o, b);
        EndIff(s[b..], q - b, q - b);
        assert false;
      }
    }
  }

  /** An opening tag that has begun a value which does not end. */
  ghost predicate Unclosed(s: string, p: nat, g: nat) {
    && p <= g < |s| && s[g] == '>' && (forall i :: p <= i < g ==> s[i] != '>') && Untagged(s[g + 1..])
  }

  lemma SpelledForward(s: string, p: nat, words: seq<string>, e: nat)
    requires Spelled(s, p, words, e)
    ensures p <= e <= |s|
    decreases |words|
  {
    if |words| > 1 {
      var r: nat :| p + |words[0]| <= r <= |s| && AllSpace(s, p + |words[0]|, r) && Spelled(s, r, words[1..], e);
      SpelledForward(s, r, words[1..], e);
    }
  }

  lemma UnclosedMatchesNothing(s: string, p: nat, g: nat, m: Match, e: nat, n: nat, h: nat, q: nat)
    requires Unclosed(s, p, g) && p <= m.start
    ensures !Matches(s, m, e, n, h, q)
  {
    if Matches(s, m, e, n, h, q) {
      SpelledForward(s, m.start, OPEN, e);
      NoEndInSuffix(s, g + 1, q, m.end);
      assert false;
    }
  }

  lemma UnclosedHasNoMatch(s: string, p: nat, g: nat, i: nat)
    requires Unclosed(s, p, g) && p <= i <= |s|
    ensures MatchAt(s, i).None?
  {
    if MatchAt(s, i).Some? {
      var m := MatchAt(s, i).value;
      ScannerSound(s, m);
      var e, n, h, q :| Matches(s, m, e, n, h, q);
      UnclosedMatchesNothing(s, p, g, m, e, n, h, q);
    }
  }

  /** A parameter whose value is still being written. */
  function Begun(k: string, rest: string): string {
    "<parameter=" + k + ">" + rest
  }

  lemma LayBegun(pre: string, k: string, rest: string)
    requires IsKey(k)
    ensures
      var s := pre + Begun(k, rest);
      var g := |pre| + 11 + |k|;
      && Word(s, |pre|, "<parameter=") && g < |s| && s[|pre| + 11..g] == k && s[g] == '>' && s[g + 1..] == rest
      && forall i :: |pre| <= i < g ==> s[i] != '>'
  {
    var s, open := pre + Begun(k, rest), "<parameter=";
    var g := |pre| + 11 + |k|;
    FiveParts(pre, open, k, ">", rest, "", "");
    assert s == pre + (open + k + ">" + rest + "") + "";
    assert s[g] == s[g..g + 1][0];
    forall i | |pre| <= i < g ensures s[i] != '>' {
      if i < |pre| + 11 {
        assert s[i] == open[i - |pre|];
      } else {
        assert s[i] == k[i - |pre| - 11];
      }
    }
    assert s[g + 1..] == s[g + 1..g + 1 + |rest|];
  }

  lemma BegunIsUnclosed(pre: string, k: string, rest: string)
    requires IsKey(k) && Untagged(rest)
    ensures Unclosed(pre + Begun(k, rest), |pre|, |pre| + 11 + |k|)
  {
    LayBegun(pre, k, rest);
  }

  lemma BegunIsUnfinished(pre: string, k: string, rest: string)
    requires IsKey(k) && k != ""
    ensures UnfinishedAt(pre + Begun(k, rest), |pre|) == Some((k, rest))
  {
    var s := pre + Begun(k, rest);
    var e := |pre| + 11;
    LayBegun(pre, k, rest);
    PlainOpen(s, |pre|);
    assert s[e] == s[e..e + |k|][0];
    UnfinishedIs(s, |pre|, k, rest, e, e, e + |k|);
  }

  lemma UnclosedIsUnmatched(s: string, attempts: Attempts<Match>, p: nat, g: nat)
    requires Unclosed(s, p, g) && Records(attempts, s)
    ensures First(attempts, p).None?
  {
    forall i: nat | p <= i <= |s| ensures attempts[i].None? {
      UnclosedHasNoMatch(s, p, g, i);
    }
  }

  lemma FirstUnfinished(pre: string, k: string, rest: string)
    requires NoTags(pre) && IsKey(k) && k != ""
    ensures First(Unfinished(pre + Begun(k, rest)), 0) == Some((k, rest))
  {
    var s := pre + Begun(k, rest);
    var attempts := Unfinished(s);
    forall i: nat | i < |pre| ensures attempts[i].None? {
      assert s[i] == pre[i] && pre[i] in pre;
      NoTagAt(s, i, 0);
    }
    SkipNone(attempts, 0, |pre|);
    BegunIsUnfinished(pre, k, rest);
  }

  /** While a call is still being written, the converter shows the complete parameters and what there
      is of the last one. */
  lemma PartialRoundTrip(args: Arguments, gap: string, k: string, rest: string)
    requires Printable(args) && NoTags(gap) && IsKey(k) && k != "" && Untagged(rest)
    ensures Converted(Print(args, gap) + Begun(k, rest), true) == Put(PutAll([], args), k, Trim(rest))
    ensures Converted(Print(args, gap) + Begun(k, rest), false) == PutAll([], args)
  {
    var s := Print(args, gap) + Begun(k, rest);
    var attempts := Matching(s);
    MatchingRecords(s);
    BegunIsUnclosed(Print(args, gap), k, rest);
    UnclosedIsUnmatched(s, attempts, |Print(args, gap)|, |Print(args, gap)| + 11 + |k|);
    PrintedIsRead(s, attempts, args, gap, Begun(k, rest));
    GapsHaveNoTags(|args|, gap);
    FirstUnfinished(Gaps(|args|, gap), k, rest);
  }

  // ---------------------------------------------------------------------------------------------
  // Exactly which values survive

  lemma SpaceInContext(s: string, a: nat, v: string, i: nat, j: nat)
    requires a + |v| <= |s| && s[a..a + |v|] == v && i <= j <= |v| && AllSpace(v, i, j)
    ensures AllSpace(s, a + i, a + j)
  {
    forall k | a + i <= k < a + j ensures Space(s[k]) {
      assert s[a..a + |v|][k - a] == v[k - a];
    }
  }

  lemma {:induction false} SpelledInContext(s: string, a: nat, v: string, r: nat, words: seq<string>, e: nat)
    requires a + |v| <= |s| && s[a..a + |v|] == v && Spelled(v, r, words, e)
    ensures Spelled(s, a + r, words, a + e)
    decreases |words|
  {
    var w := words[0];
    Part(s, a, v, r, r + |w|);
    if |words| > 1 {
      var q: nat :| r + |w| <= q <= |v| && AllSpace(v, r + |w|, q) && Spelled(v, q, words[1..], e);
      SpelledInContext(s, a, v, q, words[1..], e);
      SpaceInContext(s, a, v, r + |w|, q);
      SpelledOn(s, a + r, words, a + q, a + e);
    }
  }

  lemma SpelledOn(s: string, p: nat, words: seq<string>, q: nat, e: nat)
    requires |words| > 1 && Word(s, p, words[0])
    requires p + |words[0]| <= q <= |s| && AllSpace(s, p + |words[0]|, q) && Spelled(s, q, words[1..], e)
    ensures Spelled(s, p, words, e)
  {
  }

  lemma EndInContext(s: string, a: nat, v: string, r: nat) returns (o: nat)
    requires a + |v| <= |s| && s[a..a + |v|] == v && EndAt(v, r).Some?
    ensures r < |v| && Ends(s, a + r, o)
  {
    EndIff(v, r, EndAt(v, r).value);
    if Spell(v, r, CLOSE).Some? {
      var e := Spell(v, r, CLOSE).value;
      CloseIff(v, r, e);
      SpelledInContext(s, a, v, r, CLOSE, e);
      o := a + e;
    } else {
      var e := Spell(v, r, OPEN).value;
      OpenIff(v, r, e);
      SpelledInContext(s, a, v, r, OPEN, e);
      o := a + r;
    }
  }

  lemma {:induction false} StopsAt(s: string, p: nat, words: seq<string>, e: nat, g: nat)
    requires Spelled(s, p, words, e) && p <= g < |s| && s[g] == '>' && forall w <- words :: '>' !in w
    ensures e <= g
    decreases |words|
  {
    var w := words[0];
    assert w in words;
    WordStops(s, p, w, g);
    if |words| > 1 {
      var q: nat :| p + |w| <= q <= |s| && AllSpace(s, p + |w|, q) && Spelled(s, q, words[1..], e);
      assert q <= g;
      assert forall x <- words[1..] :: x in words;
      StopsAt(s, q, words[1..], e, g);
    }
  }

  lemma WordStops(s: string, p: nat, w: string, g: nat)
    requires Word(s, p, w) && p <= g < |s| && s[g] == '>' && '>' !in w
    ensures p + |w| <= g
  {
    if |w| > 0 {
      var j := if p + |w| > g then g - p else 0;
      assert w[j] == s[p..p + |w|][j] == s[p + j] && w[j] in w;
    }
  }

  /** Some tag in the value ends every value the scanner reads before it is as long as `v`. */
  lemma ShortValue(s: string, k: string, v: string, t: nat, o: nat, m: Match, e: nat, n: nat, h: nat, q: nat)
    requires Laid(s, 0, k, v) && |s| == |k| + |v| + 26 && IsKey(k)
    requires 13 + |k| <= t < 13 + |k| + |v| && Ends(s, t, o) && Matches(s, m, e, n, h, q)
    ensures |Trim(m.value)| < |v|
  {
    SpelledForward(s, m.start, OPEN, e);
    if m.start <= 11 + |k| {
      OpenStops(s, k, v, m.start, e);
      ShortFirst(s, 11 + |k|, t, o, m, e, n, h, q);
    } else {
      NotAtBreak(s, m.start, e, 12 + |k|);
      SpelledSize(s, m.start, OPEN, e);
      EndsByClose(s, k, v, m, e, n, h, q);
      assert |m.value| < |v|;
    }
  }

  /** The value of the first tag ends at `t` or before, and begins with the template's line break. */
  lemma ShortFirst(s: string, g: nat, t: nat, o: nat, m: Match, e: nat, n: nat, h: nat, q: nat)
    requires g + 2 <= t <= |s| && s[g] == '>' && s[g + 1] == '\n' && Ends(s, t, o) && Matches(s, m, e, n, h, q)
    requires e <= g && forall i :: 0 <= i < g ==> s[i] != '>'
    ensures |Trim(m.value)| <= t - g - 2
  {
    assert h == g;
    assert q <= t;
    assert m.value == s[g + 1..q];
  }

  lemma NotAtBreak(s: string, p: nat, e: nat, b: nat)
    requires Spelled(s, p, OPEN, e) && b < |s| && s[b] == '\n'
    ensures p != b
  {
    assert s[p] == s[p..p + 1][0] == '<';
  }

  lemma SpelledSize(s: string, p: nat, words: seq<string>, e: nat)
    requires Spelled(s, p, words, e)
    ensures e >= p + Width(words)
    decreases |words|
  {
    if |words| > 1 {
      var r: nat :| p + |words[0]| <= r <= |s| && AllSpace(s, p + |words[0]|, r) && Spelled(s, r, words[1..], e);
      SpelledSize(s, r, words[1..], e);
    } else {
      assert words[1..] == [];
    }
  }

  lemma OpenStops(s: string, k: string, v: string, p: nat, e: nat)
    requires Laid(s, 0, k, v) && IsKey(k) && p <= 11 + |k| && Spelled(s, p, OPEN, e)
    ensures e <= 11 + |k| && forall i :: 0 <= i < 11 + |k| ==> s[i] != '>'
  {
    StopsAt(s, p, OPEN, e, 11 + |k|);
    forall i | 0 <= i < 11 + |k| ensures s[i] != '>' {
      if i < 11 {
        assert s[i] == s[0..11][i];
      } else {
        assert s[i] == s[11..11 + |k|][i - 11];
      }
    }
  }

  /** No value runs past the closing tag. */
  lemma EndsByClose(s: string, k: string, v: string, m: Match, e: nat, n: nat, h: nat, q: nat)
    requires Laid(s, 0, k, v) && |s| == |k| + |v| + 26 && Matches(s, m, e, n, h, q)
    ensures q <= 14 + |k| + |v|
  {
    var c := 14 + |k| + |v|;
    ClosingTag(s, k, v);
    CloseEnds(s, c);
    EndsByTag(s, c, m, e, n, h, q);
  }

  lemma ClosingTag(s: string, k: string, v: string)
    requires Laid(s, 0, k, v)
    ensures Word(s, 14 + |k| + |v|, "</parameter>")
  {
  }

  lemma CloseEnds(s: string, c: nat)
    requires Word(s, c, "</parameter>")
    ensures Ends(s, c, c + 12) && forall i :: c <= i < c + 11 ==> s[i] != '>'
  {
    PlainClose(s, c);
    forall i | c <= i < c + 11 ensures s[i] != '>' {
      assert s[i] == s[c..c + 12][i - c];
    }
  }

  lemma EndsByTag(s: string, c: nat, m: Match, e: nat, n: nat, h: nat, q: nat)
    requires |s| == c + 12 && Ends(s, c, c + 12) && forall i :: c <= i < c + 11 ==> s[i] != '>'
    requires Matches(s, m, e, n, h, q)
    ensures q <= c
  {
    EndIff(s, |s|, m.end);
  }

  lemma {:induction false} FoundAreMatches(attempts: Attempts<Match>, at: nat)
    requires Forward(attempts)
    ensures forall m <- Found(attempts, at) :: m.start < |attempts| && attempts[m.start] == Some(m)
    decreases |attempts| - at
  {
    var m := First(attempts, at);
    if m.Some? {
      FoundAreMatches(attempts, m.value.end);
    }
  }

  ghost predicate Shorter(params: Arguments, n: nat) {
    forall b <- params :: |b.1| < n
  }

  lemma {:induction false} PutShort(params: Arguments, k: string, v: string, n: nat)
    requires Shorter(params, n) && |v| < n
    ensures Shorter(Put(params, k, v), n)
    decreases |params|
  {
    if params != [] {
      assert params[0] in params && forall b <- params[1..] :: b in params;
      PutShort(params[1..], k, v, n);
    }
  }

  lemma {:induction false} CollectShort(ms: seq<Match>, params: Arguments, n: nat)
    requires Shorter(params, n) && forall m <- ms :: |Trim(m.value)| < n
    ensures Shorter(Collect(ms, params), n)
    decreases |ms|
  {
    if ms != [] {
      assert ms[0] in ms && forall m <- ms[1..] :: m in ms;
      PutShort(params, ms[0].name, Trim(ms[0].value), n);
      CollectShort(ms[1..], Put(params, ms[0].name, Trim(ms[0].value)), n);
    }
  }

  lemma AllReadingsShort(s: string, k: string, v: string, t: nat, o: nat)
    requires Laid(s, 0, k, v) && |s| == |k| + |v| + 26 && IsKey(k)
    requires 13 + |k| <= t < 13 + |k| + |v| && Ends(s, t, o)
    ensures forall m <- Found(Matching(s), 0) :: |Trim(m.value)| < |v|
  {
    MatchingRecords(s);
    FoundAreMatches(Matching(s), 0);
    forall m <- Found(Matching(s), 0) ensures |Trim(m.value)| < |v| {
      assert MatchAt(s, m.start) == Some(m);
      ScannerSound(s, m);
      var e, n, h, q :| Matches(s, m, e, n, h, q);
      ShortValue(s, k, v, t, o, m, e, n, h, q);
    }
  }

  lemma JoinOne(x: string)
    ensures Join([x], "") == x && "" + x + "" == x
  {
    assert [x][1..] == [];
  }

  lemma UntaggedSurvives(k: string, v: string)
    requires IsKey(k) && Untagged(v)
    ensures Converted(Printed(k, v), false) == [(k, v)]
  {
    assert Texts([(k, v)]) == [Printed(k, v)];
    JoinOne(Printed(k, v));
    RoundTrip([(k, v)], "", false);
  }

  lemma LaidAlone(k: string, v: string)
    ensures Laid(Printed(k, v), 0, k, v) && |Printed(k, v)| == |k| + |v| + 26
  {
    LayOut("", k, v, "");
    JoinOne(Printed(k, v));
  }

  lemma TaggedIsShortened(k: string, v: string, r: nat)
    requires IsKey(k) && r <= |v| && EndAt(v, r).Some?
    ensures Shorter(Converted(Printed(k, v), false), |v|)
  {
    LaidAlone(k, v);
    LaidIsShortened(Printed(k, v), k, v, r);
  }

  lemma LaidIsShortened(s: string, k: string, v: string, r: nat)
    requires IsKey(k) && r <= |v| && EndAt(v, r).Some?
    requires Laid(s, 0, k, v) && |s| == |k| + |v| + 26
    ensures Shorter(Converted(s, false), |v|)
  {
    var o := EndInContext(s, 13 + |k|, v, r);
    AllReadingsShort(s, k, v, 13 + |k| + r, o);
    CollectShort(Found(Matching(s), 0), [], |v|);
  }

  /** A value survives the template and the converter exactly when it contains neither tag. */
  lemma SurvivesIffUntagged(k: string, v: string)
    requires IsKey(k)
    ensures Converted(Printed(k, v), false) == [(k, v)] <==> Untagged(v)
  {
    if Untagged(v) {
      UntaggedSurvives(k, v);
    } else {
      var r: nat :| r <= |v| && EndAt(v, r).Some?;
      TaggedIsShortened(k, v, r);
      assert (k, v) in [(k, v)];
    }
  }
}
