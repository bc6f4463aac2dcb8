/** Splitting an address at colons with strtok_r, which works in place on the caller's string.
    strtok_r follows section 7.24.5.8 of ISO C11 with the position kept by the caller. */
module Endpoint {
  import opened Basics

  const NUL: char := '\0'

  /** The place of a token: s[begin..end]. */
  datatype Place = Place(begin: nat, end: nat)

  /** Where the C string that starts `b` ends. */
  function StrLen(b: seq<char>): (n: nat)
    ensures n <= |b| && (forall k :: 0 <= k < n ==> b[k] != NUL) && (n < |b| ==> b[n] == NUL)
  {
    if b == [] || b[0] == NUL then 0 else 1 + StrLen(b[1..])
  }

  function CStr(b: seq<char>): seq<char> { b[..StrLen(b)] }

  /** strspn: the first position from p on that is no delimiter. */
  function SkipTo(s: seq<char>, delims: set<char>, p: nat): (i: nat)
    requires p <= |s|
    ensures p <= i <= |s| && (forall k :: p <= k < i ==> s[k] in delims) && (i < |s| ==> s[i] !in delims)
    decreases |s| - p
  {
    if p == |s| || s[p] !in delims then p else SkipTo(s, delims, p + 1)
  }

  /** strcspn: the first position from p on that is a delimiter. */
  function StopAt(s: seq<char>, delims: set<char>, p: nat): (j: nat)
    requires p <= |s|
    ensures p <= j <= |s| && (forall k :: p <= k < j ==> s[k] !in delims) && (j < |s| ==> s[j] in delims)
    ensures p < |s| && s[p] !in delims ==> p < j
    decreases |s| - p
  {
    if p == |s| || s[p] in delims then p else StopAt(s, delims, p + 1)
  }

  /** Where the search goes on after a token that ends at j. */
  function Resume(s: seq<char>, j: nat): nat { if j < |s| then j + 1 else j }

  /** The tokens found from position p on. */
  function TokensFrom(s: seq<char>, delims: set<char>, p: nat): seq<Place>
    requires p <= |s|
    decreases |s| - p
  {
    var i := SkipTo(s, delims, p);
    if i == |s| then []
    else
      var j := StopAt(s, delims, i);
      [Place(i, j)] + TokensFrom(s, delims, Resume(s, j))
  }

  function Text(s: seq<char>, at: seq<Place>): (ts: seq<seq<char>>)
    requires forall k :: 0 <= k < |at| ==> at[k].begin <= at[k].end <= |s|
    ensures |ts| == |at| && forall k :: 0 <= k < |at| ==> ts[k] == s[at[k].begin..at[k].end]
  {
    seq(|at|, k requires 0 <= k < |at| => s[at[k].begin..at[k].end])
  }

  // ---- the tokens are the maximal runs -------------------------------------------------------------

  /** A non-empty delimiter-free stretch that cannot be made longer at either end. */
  predicate IsRun(s: seq<char>, delims: set<char>, r: Place)
  {
    && r.begin < r.end <= |s|
    && (forall k :: r.begin <= k < r.end ==> s[k] !in delims)
    && (r.begin > 0 ==> s[r.begin - 1] in delims)
    && (r.end < |s| ==> s[r.end] in delims)
  }

  /** All runs from position p on, and only those, from left to right. */
  ghost predicate AllRuns(s: seq<char>, delims: set<char>, p: nat, at: seq<Place>)
  {
    && (forall k :: 0 <= k < |at| ==> p <= at[k].begin && IsRun(s, delims, at[k]))
    && (forall k, l :: 0 <= k < l < |at| ==> at[k].end < at[l].begin)
    && (forall r: Place :: p <= r.begin && IsRun(s, delims, r) ==> r in at)
  }

  lemma OneRunFrom(s: seq<char>, delims: set<char>, r: Place, q: Place)
    requires IsRun(s, delims, r) && IsRun(s, delims, q) && r.begin == q.begin
    ensures r == q
  {
  }

  lemma RunsDoNotMeet(s: seq<char>, delims: set<char>, r: Place, q: Place)
    requires IsRun(s, delims, r) && IsRun(s, delims, q) && r.begin < q.begin
    ensures r.end < q.begin && s[r.end] in delims
  {
  }

  lemma AllRunsCons(s: seq<char>, delims: set<char>, p: nat, first: Place, rest: seq<Place>)
    requires IsRun(s, delims, first) && p <= first.begin && (forall k :: p <= k < first.begin ==> s[k] in delims)
    requires AllRuns(s, delims, Resume(s, first.end), rest)
    ensures AllRuns(s, delims, p, [first] + rest)
  {
    var at := [first] + rest;
    assert at[0] == first && forall k :: 0 < k < |at| ==> at[k] == rest[k - 1];
    forall r: Place | p <= r.begin && IsRun(s, delims, r) ensures r in at {
      assert s[r.begin] !in delims;
      if r.begin == first.begin {
        OneRunFrom(s, delims, r, first);
      } else {
        RunsDoNotMeet(s, delims, first, r);
        assert r in rest;
      }
    }
  }

  lemma {:induction false} TokensFromAreRuns(s: seq<char>, delims: set<char>, p: nat)
    requires p <= |s| && (0 < p < |s| ==> s[p - 1] in delims)
    ensures AllRuns(s, delims, p, TokensFrom(s, delims, p))
    decreases |s| - p
  {
    var i := SkipTo(s, delims, p);
    if i < |s| {
      var j := StopAt(s, delims, i);
      TokensFromAreRuns(s, delims, Resume(s, j));
      AllRunsCons(s, delims, p, Place(i, j), TokensFrom(s, delims, Resume(s, j)));
    } else {
      forall r: Place | p <= r.begin ensures !IsRun(s, delims, r) {
        assert r.begin < |s| ==> s[r.begin] in delims;
      }
    }
  }

  // ---- joining and splitting ---------------------------------------------------------------------------

  lemma SkipToIs(s: seq<char>, delims: set<char>, p: nat, i: nat)
    requires p <= i <= |s| && (forall k :: p <= k < i ==> s[k] in delims) && (i < |s| ==> s[i] !in delims)
    ensures SkipTo(s, delims, p) == i
  {
  }

  lemma StopAtIs(s: seq<char>, delims: set<char>, p: nat, j: nat)
    requires p <= j <= |s| && (forall k :: p <= k < j ==> s[k] !in delims) && (j < |s| ==> s[j] in delims)
    ensures StopAt(s, delims, p) == j
  {
  }

  lemma FirstToken(s: seq<char>, delims: set<char>, p: nat, i: nat, j: nat)
    requires p <= i < j <= |s| && (forall k :: p <= k < i ==> s[k] in delims)
    requires (forall k :: i <= k < j ==> s[k] !in delims) && (j < |s| ==> s[j] in delims)
    ensures TokensFrom(s, delims, p) == [Place(i, j)] + TokensFrom(s, delims, Resume(s, j))
  {
    SkipToIs(s, delims, p, i);
    StopAtIs(s, delims, i, j);
  }

  function Runs(s: seq<char>, delims: set<char>): (ts: seq<seq<char>>)
    ensures |ts| == |TokensFrom(s, delims, 0)|
  {
    TokensFromAreRuns(s, delims, 0);
    Text(s, TokensFrom(s, delims, 0))
  }

  lemma OneDelimiterTwoTokens(s: seq<char>, d: char, n: nat)
    requires 0 < n < |s| - 1 && forall k :: 0 <= k < |s| ==> (s[k] == d <==> k == n)
    ensures TokensFrom(s, {d}, 0) == [Place(0, n), Place(n + 1, |s|)]
  {
    FirstToken(s, {d}, 0, 0, n);
    FirstToken(s, {d}, n + 1, n + 1, |s|);
    SkipToIs(s, {d}, |s|, |s|);
    assert TokensFrom(s, {d}, |s|) == [];
  }

  /** Splitting undoes joining two non-empty parts free of the delimiter. */
  lemma SplitUndoesJoin(a: seq<char>, b: seq<char>, d: char)
    requires a != [] && b != [] && d !in a && d !in b
    ensures Runs(a + [d] + b, {d}) == [a, b]
  {
    var s := a + [d] + b;
    assert forall k :: 0 <= k < |s| ==> s[k] == if k < |a| then a[k] else if k == |a| then d else b[k - |a| - 1];
    OneDelimiterTwoTokens(s, d, |a|);
    assert s[0..|a|] == a && s[|a| + 1..|s|] == b;
  }

  // ---- what the in-place loop leaves behind ---------------------------------------------------------------

  predicate EndsAt(at: seq<Place>, k: nat)
  {
    exists l :: 0 <= l < |at| && at[l].end == k
  }

  /** The character right after each token is NUL; nothing else has changed. */
  ghost predicate Marked(was: seq<char>, now: seq<char>, at: seq<Place>)
  {
    |now| == |was| && forall k :: 0 <= k < |was| ==> now[k] == if EndsAt(at, k) then NUL else was[k]
  }

  lemma StrLenIs(b: seq<char>, n: nat)
    requires n < |b| && b[n] == NUL && forall k :: 0 <= k < n ==> b[k] != NUL
    ensures StrLen(b) == n
  {
  }

  lemma TokensOfFirstRun(s: seq<char>, delims: set<char>)
    requires TokensFrom(s, delims, 0) != []
    ensures var r := TokensFrom(s, delims, 0)[0];
            r.begin < r.end <= |s| && Runs(s[..r.end], delims) == [s[r.begin..r.end]]
  {
    var i := SkipTo(s, delims, 0);
    var j := StopAt(s, delims, i);
    var t := s[..j];
    FirstToken(t, delims, 0, i, j);
    SkipToIs(t, delims, j, j);
    assert TokensFrom(t, delims, j) == [];
    assert t[i..j] == s[i..j];
  }

  /** The first mark, if there are tokens: no place before the end of the first is marked. */
  lemma FirstMark(s: seq<char>, delims: set<char>)
    requires TokensFrom(s, delims, 0) != []
    ensures var at := TokensFrom(s, delims, 0);
            at[0].end <= |s| && EndsAt(at, at[0].end) && forall k: nat :: k < at[0].end ==> !EndsAt(at, k)
  {
    TokensFromAreRuns(s, delims, 0);
    var at := TokensFrom(s, delims, 0);
    forall l | 0 <= l < |at| ensures at[l].end >= at[0].end {
      assert IsRun(s, delims, at[l]);
    }
  }

  /** Once split, a string shows its readers only its first run. */
  lemma MarkedShowsFirstRun(was: seq<char>, now: seq<char>, delims: set<char>)
    requires was != [] && was[|was| - 1] == NUL && Marked(was, now, TokensFrom(CStr(was), delims, 0))
    ensures var runs := Runs(CStr(was), delims);
            Runs(CStr(now), delims) == if runs == [] then [] else [runs[0]]
  {
    var s := CStr(was);
    var at := TokensFrom(s, delims, 0);
    StrLenInside(was);
    if at == [] {
      assert now == was;
    } else {
      var j := at[0].end;
      FirstMark(s, delims);
      TokensOfFirstRun(s, delims);
      StrLenIs(now, j);
      assert CStr(now) == s[..j];
    }
  }

  // ---- the code ---------------------------------------------------------------------------------------------

  /** strtok_r from position `from` of a buffer that holds the string `s`, of which it has not
      touched anything from there on: the next token's place, or None, and where to go on. */
  method StrtokR(buf: array<char>, from: nat, delims: set<char>, ghost s: seq<char>)
    returns (token: Option<Place>, save: nat)
    requires from <= |s| < buf.Length && buf[|s|] == NUL && NUL !in delims
    requires forall k :: from <= k < |s| ==> buf[k] == s[k] != NUL
    modifies buf
    ensures var i := SkipTo(s, delims, from);
            if i == |s| then token == None && buf[..] == old(buf[..])
            else
              var j := StopAt(s, delims, i);
              token == Some(Place(i, j)) && save == Resume(s, j) && buf[..] == old(buf[..])[j := NUL]
  {
    var i := from;
    while buf[i] in delims
      invariant from <= i <= |s| && SkipTo(s, delims, i) == SkipTo(s, delims, from)
      decreases |s| - i
    {
      i := i + 1;
    }
    if buf[i] == NUL {
      return None, i;
    }
    var j := i;
    while buf[j] != NUL && buf[j] !in delims
      invariant i <= j <= |s| && StopAt(s, delims, j) == StopAt(s, delims, i)
      decreases |s| - j
    {
      j := j + 1;
    }
    token := Some(Place(i, j));
    if buf[j] == NUL {
      save := j;
    } else {
      buf[j] := NUL;
      save := j + 1;
    }
  }

  /** The tokens before `from` have been cut out of the buffer and the rest is untouched. */
  ghost predicate Progress(s: seq<char>, delims: set<char>, was: seq<char>, now: seq<char>, done: seq<Place>, from: nat)
  {
    && from <= |s| < |was| && Marked(was, now, done)
    && TokensFrom(s, delims, 0) == done + TokensFrom(s, delims, from)
    && (forall k :: from <= k < |s| ==> !EndsAt(done, k))
  }

  lemma Advance(s: seq<char>, delims: set<char>, was: seq<char>, now: seq<char>, done: seq<Place>, from: nat)
    requires Progress(s, delims, was, now, done, from)
    ensures var i := SkipTo(s, delims, from);
            if i == |s| then done == TokensFrom(s, delims, 0)
            else
              var j := StopAt(s, delims, i);
              Progress(s, delims, was, now[j := NUL], done + [Place(i, j)], Resume(s, j))
  {
    var i := SkipTo(s, delims, from);
    if i == |s| {
      assert done + [] == done;
    } else {
      var j := StopAt(s, delims, i);
      var more := done + [Place(i, j)];
      assert done + ([Place(i, j)] + TokensFrom(s, delims, Resume(s, j))) == more + TokensFrom(s, delims, Resume(s, j));
      forall k: nat ensures EndsAt(more, k) <==> EndsAt(done, k) || k == j {
        EndsAtAppend(done, Place(i, j), k);
      }
    }
  }

  lemma EndsAtAppend(done: seq<Place>, r: Place, k: nat)
    ensures EndsAt(done + [r], k) <==> EndsAt(done, k) || k == r.end
  {
    var more := done + [r];
    assert more[|done|] == r;
    if l :| 0 <= l < |done| && done[l].end == k {
      assert more[l].end == k;
    }
  }

  lemma StrLenInside(b: seq<char>)
    requires b != [] && b[|b| - 1] == NUL
    ensures StrLen(b) < |b|
  {
  }

  lemma LastIsRun(s: seq<char>, delims: set<char>, done: seq<Place>, rest: seq<Place>)
    requires TokensFrom(s, delims, 0) == done + rest && done != []
    ensures var r := done[|done| - 1];
            IsRun(s, delims, r) && forall k: nat :: r.begin <= k < r.end ==> !EndsAt(done, k)
  {
    var at := done + rest;
    TokensFromAreRuns(s, delims, 0);
    var n := |done| - 1;
    assert at[n] == done[n];
    forall l | 0 <= l < |done| ensures done[l].end < done[n].begin || l == n {
      assert done[l] == at[l];
    }
  }

  /** The token found last is still in the buffer as it was in the string. */
  lemma TokenIntact(s: seq<char>, was: seq<char>, now: seq<char>, done: seq<Place>, r: Place)
    requires Marked(was, now, done) && |s| < |was| && s == was[..|s|] && r.begin <= r.end <= |s|
    requires forall k: nat :: r.begin <= k < r.end ==> !EndsAt(done, k)
    ensures now[r.begin..r.end] == s[r.begin..r.end]
  {
  }

  /** The texts of the first n tokens. */
  ghost predicate Collected(s: seq<char>, done: seq<Place>, n: nat, result: seq<seq<char>>)
  {
    n == |result| <= |done|
    && forall k :: 0 <= k < n ==> done[k].begin <= done[k].end <= |s| && result[k] == s[done[k].begin..done[k].end]
  }

  /** A token has been found and its text is not in the result yet. */
  ghost predicate Going(s: seq<char>, delims: set<char>, was: seq<char>, now: seq<char>, done: seq<Place>, save: nat,
                        token: Place, result: seq<seq<char>>)
  {
    && Progress(s, delims, was, now, done, save) && s == CStr(was)
    && done != [] && done[|done| - 1] == token && Collected(s, done, |done| - 1, result)
  }

  lemma Collect(s: seq<char>, delims: set<char>, was: seq<char>, now: seq<char>, done: seq<Place>, save: nat, token: Place,
                result: seq<seq<char>>)
    requires Going(s, delims, was, now, done, save, token, result)
    ensures token.begin <= token.end <= |now| && Collected(s, done, |done|, result + [now[token.begin..token.end]])
  {
    LastIsRun(s, delims, done, TokensFrom(s, delims, save));
    TokenIntact(s, was, now, done, token);
  }

  lemma CollectedMore(s: seq<char>, done: seq<Place>, result: seq<seq<char>>, r: Place)
    requires Collected(s, done, |done|, result)
    ensures Collected(s, done + [r], |done|, result)
  {
  }

  lemma Begin(s: seq<char>, delims: set<char>, was: seq<char>)
    requires was != [] && was[|was| - 1] == NUL && s == CStr(was)
    ensures Progress(s, delims, was, was, [], 0)
  {
  }

  lemma Untouched(s: seq<char>, delims: set<char>, was: seq<char>, now: seq<char>, done: seq<Place>, from: nat)
    requires Progress(s, delims, was, now, done, from) && s == CStr(was)
    ensures now[|s|] == NUL && forall k :: from <= k < |s| ==> now[k] == s[k] != NUL
  {
  }

  lemma Finish(s: seq<char>, delims: set<char>, result: seq<seq<char>>)
    requires Collected(s, TokensFrom(s, delims, 0), |TokensFrom(s, delims, 0)|, result)
    ensures result == Runs(s, delims)
  {
  }

  /** split: the maximal runs of the string, and the string left marked where they end. */
  method Split(buf: array<char>, delims: set<char>) returns (result: seq<seq<char>>)
    requires buf.Length > 0 && buf[buf.Length - 1] == NUL && NUL !in delims
    modifies buf
    ensures var s := CStr(old(buf[..]));
            result == Runs(s, delims) && Marked(old(buf[..]), buf[..], TokensFrom(s, delims, 0))
  {
    ghost var was := buf[..];
    ghost var s := CStr(was);
    ghost var done: seq<Place> := [];
    Begin(s, delims, was);
    result := [];
    var token, save := NextToken(buf, 0, delims, s, was, done);
    while token.Some?
      invariant Collected(s, done, |done|, result)
      invariant token.Some? ==> Going(s, delims, was, buf[..], done + [token.value], save, token.value, result)
      invariant token.None? ==> done == TokensFrom(s, delims, 0) && Marked(was, buf[..], done)
      decreases if token.Some? then |s| - save + 1 else 0
    {
      done := done + [token.value];
      Collect(s, delims, was, buf[..], done, save, token.value, result);
      result := result + [buf[token.value.begin..token.value.end]];
      token, save := NextToken(buf, save, delims, s, was, done);
      if token.Some? {
        CollectedMore(s, done, result, token.value);
      }
    }
    Finish(s, delims, result);
  }

  /** strtok_r once more: either all tokens are done, or one more is. */
  method NextToken(buf: array<char>, from: nat, delims: set<char>, ghost s: seq<char>, ghost was: seq<char>, ghost done: seq<Place>)
    returns (token: Option<Place>, save: nat)
    requires Progress(s, delims, was, buf[..], done, from) && s == CStr(was) && NUL !in delims
    modifies buf
    ensures token.None? ==> done == TokensFrom(s, delims, 0) && Marked(was, buf[..], done)
    ensures token.Some? ==> Progress(s, delims, was, buf[..], done + [token.value], save) && from < save
  {
    Untouched(s, delims, was, buf[..], done, from);
    Advance(s, delims, was, buf[..], done, from);
    token, save := StrtokR(buf, from, delims, s);
  }

  /** The answer to an address: its two colon-free runs, wherever the colons are, or a throw. */
  function Answer(b: seq<char>): (r: Option<(seq<char>, seq<char>)>)
  {
    var runs := Runs(CStr(b), {':'});
    if |runs| == 2 then Some((runs[0], runs[1])) else None
  }

  /** The string has the runs r and q, in this order, and no other. */
  ghost predicate OnlyRuns(s: seq<char>, delims: set<char>, r: Place, q: Place)
  {
    && IsRun(s, delims, r) && IsRun(s, delims, q) && r.begin < q.begin
    && forall x: Place :: IsRun(s, delims, x) ==> x == r || x == q
  }

  ghost predicate HostAndPort(s: seq<char>, host: seq<char>, port: seq<char>, r: Place, q: Place)
  {
    OnlyRuns(s, {':'}, r, q) && host == s[r.begin..r.end] && port == s[q.begin..q.end]
  }

  predicate Increasing(at: seq<Place>) { forall k, l :: 0 <= k < l < |at| ==> at[k].begin < at[l].begin }

  lemma FirstThreeDiffer(at: seq<Place>)
    requires Increasing(at)
    ensures |at| > 1 ==> at[0].begin < at[1].begin
    ensures |at| > 2 ==> at[1].begin < at[2].begin
  {
  }

  lemma TwoInOrder(at: seq<Place>, r: Place, q: Place)
    requires r.begin < q.begin && r in at && q in at && Increasing(at)
    requires forall k :: 0 <= k < |at| ==> at[k] == r || at[k] == q
    ensures at == [r, q]
  {
    FirstThreeDiffer(at);
  }

  lemma TwoTokensOnly(s: seq<char>, delims: set<char>, at: seq<Place>, r: Place, q: Place)
    requires AllRuns(s, delims, 0, at) && OnlyRuns(s, delims, r, q)
    ensures at == [r, q]
  {
    forall k | 0 <= k < |at| ensures at[k] == r || at[k] == q {
      assert IsRun(s, delims, at[k]);
    }
    forall k, l | 0 <= k < l < |at| ensures at[k].begin < at[l].begin {
      assert IsRun(s, delims, at[k]);
    }
    TwoInOrder(at, r, q);
  }

  /** An address is accepted with a host and a port if and only if these are its two colon-free runs,
      in order, and it has no other: too few or too many runs are rejected. */
  lemma AcceptedIff(b: seq<char>, host: seq<char>, port: seq<char>)
    ensures Answer(b) == Some((host, port)) <==> exists r, q :: HostAndPort(CStr(b), host, port, r, q)
  {
    var s := CStr(b);
    var at := TokensFrom(s, {':'}, 0);
    TokensFromAreRuns(s, {':'}, 0);
    if Answer(b) == Some((host, port)) {
      assert at[0].end < at[1].begin && IsRun(s, {':'}, at[0]) && IsRun(s, {':'}, at[1]);
      assert at == [at[0], at[1]];
      assert HostAndPort(s, host, port, at[0], at[1]);
    }
    if r, q :| HostAndPort(s, host, port, r, q) {
      TwoTokensOnly(s, {':'}, at, r, q);
    }
  }

  /** What a call leaves in its argument: accepted or not, a string with a colon comes back marked. */
  ghost predicate LeftBehind(was: seq<char>, now: seq<char>)
    requires was != []
  {
    if ':' in was[..|was| - 1] then Marked(was, now, TokensFrom(CStr(was), {':'}, 0)) else now == was
  }

  /** get_endpoint on a std::string held in `buf` with its terminating NUL. */
  method GetEndpoint(buf: array<char>) returns (r: Option<(seq<char>, seq<char>)>)
    requires buf.Length > 0 && buf[buf.Length - 1] == NUL
    modifies buf
    ensures r == Answer(old(buf[..])) && LeftBehind(old(buf[..]), buf[..])
  {
    if ':' !in buf[..buf.Length - 1] {
      NoColonNoTwoRuns(buf[..]);
      return None;
    }
    var vec := Split(buf, {':'});
    if |vec| != 2 {
      return None;
    }
    return Some((vec[0], vec[1]));
  }

  /** get_endpoint inverts joining a host and a port with a colon, whatever they are. */
  lemma EndpointUndoesJoin(host: seq<char>, port: seq<char>)
    requires host != [] && port != [] && ':' !in host && ':' !in port && NUL !in host && NUL !in port
    ensures Answer(host + [':'] + port + [NUL]) == Some((host, port))
  {
    var s := host + [':'] + port;
    var b := s + [NUL];
    assert forall k :: 0 <= k < |s| ==> b[k] == if k < |host| then host[k] else if k == |host| then ':' else port[k - |host| - 1];
    StrLenIs(b, |s|);
    assert CStr(b) == s;
    SplitUndoesJoin(host, port, ':');
  }

  lemma NoColonNoTwoRuns(b: seq<char>)
    requires b != [] && b[|b| - 1] == NUL && ':' !in b[..|b| - 1]
    ensures |Runs(CStr(b), {':'})| < 2
  {
    var s := CStr(b);
    StrLenInside(b);
    assert forall k :: 0 <= k < |s| ==> s[k] == b[..|b| - 1][k];
    SkipToIs(s, {':'}, |s|, |s|);
    assert TokensFrom(s, {':'}, |s|) == [];
    if s != [] {
      FirstToken(s, {':'}, 0, 0, |s|);
    }
  }

  /** The argument is a const reference, yet a second call on the same string object gives the first
      one's answer if and only if the first rejected it: an accepted string is rejected next time,
      and a rejected one stays rejected. */
  lemma SecondCallAgreesIff(was: seq<char>, now: seq<char>)
    requires was != [] && was[|was| - 1] == NUL && LeftBehind(was, now)
    ensures Answer(now) == Answer(was) <==> Answer(was).None?
    ensures Answer(now).None?
  {
    if ':' in was[..|was| - 1] {
      MarkedShowsFirstRun(was, now, {':'});
    } else {
      NoColonNoTwoRuns(was);
    }
  }

  /** So every address of the documented form is accepted once, and not again. */
  lemma AcceptedOnlyOnce(host: seq<char>, port: seq<char>, now: seq<char>)
    requires host != [] && port != [] && ':' !in host && ':' !in port && NUL !in host && NUL !in port
    requires LeftBehind(host + [':'] + port + [NUL], now)
    ensures Answer(host + [':'] + port + [NUL]) == Some((host, port)) && Answer(now) == None
  {
    EndpointUndoesJoin(host, port);
    SecondCallAgreesIff(host + [':'] + port + [NUL], now);
  }
}
