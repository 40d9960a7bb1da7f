/** The replacement loop of internal/lxc/client_instances.go, which applies strings.ReplaceAll once per
    entry of a map that Go iterates in random order. */
module Replacements {
  import opened Common

  type Replacer = map<string, string>

  /** strings.ReplaceAll: replace the leftmost non-overlapping occurrences. An empty pattern matches
      before every character and at the end. */
  function ReplaceAll(s: string, old_: string, new_: string): string
    decreases |s|
  {
    if old_ == "" then (if s == "" then new_ else new_ + [s[0]] + ReplaceAll(s[1..], old_, new_))
    else if s == "" then ""
    else if old_ <= s then new_ + ReplaceAll(s[|old_|..], old_, new_)
    else [s[0]] + ReplaceAll(s[1..], old_, new_)
  }

  predicate Occurs(p: string, s: string, i: nat) { i + |p| <= |s| && s[i..i + |p|] == p }

  lemma ReplaceSteps(s: string, p: string, q: string)
    requires p != ""
    ensures Occurs(p, s, 0) ==> ReplaceAll(s, p, q) == q + ReplaceAll(s[|p|..], p, q)
    ensures !Occurs(p, s, 0) && s != "" ==> ReplaceAll(s, p, q) == [s[0]] + ReplaceAll(s[1..], p, q)
  {
    assert p <= s <==> Occurs(p, s, 0);
  }

  lemma NextAfter(s: string, i: nat, p: string, q: string)
    requires p != "" && i < |s|
    ensures Occurs(p, s, i) ==> ReplaceAll(s[i..], p, q) == q + ReplaceAll(s[i + |p|..], p, q)
    ensures !Occurs(p, s, i) ==> ReplaceAll(s[i..], p, q) == [s[i]] + ReplaceAll(s[i + 1..], p, q)
  {
    var t := s[i..];
    ReplaceSteps(t, p, q);
    if i + |p| <= |s| {
      assert t[0..|p|] == s[i..i + |p|] && t[|p|..] == s[i + |p|..];
    }
    assert t[1..] == s[i + 1..];
  }

  lemma Moves(s: string, i: nat, x: string, y: string)
    requires i < |s| && x == [s[i]] + y
    ensures s[..i] + x == s[..i + 1] + y
  {
  }

  lemma {:induction false} NothingBefore(s: string, i: nat, p: string, q: string)
    requires p != "" && i <= |s| && forall j | 0 <= j < i :: !Occurs(p, s, j)
    ensures ReplaceAll(s, p, q) == s[..i] + ReplaceAll(s[i..], p, q)
  {
    if i == 0 {
      assert s[0..] == s;
    } else {
      NothingBefore(s, i - 1, p, q);
      NextAfter(s, i - 1, p, q);
      Moves(s, i - 1, ReplaceAll(s[i - 1..], p, q), ReplaceAll(s[i..], p, q));
    }
  }

  /** The first occurrence is replaced, what is before it stays, and the search goes on after it. */
  lemma FirstIsReplaced(s: string, n: nat, p: string, q: string)
    requires p != "" && Occurs(p, s, n) && forall i | 0 <= i < n :: !Occurs(p, s, i)
    ensures ReplaceAll(s, p, q) == s[..n] + (q + ReplaceAll(s[n + |p|..], p, q))
  {
    NothingBefore(s, n, p, q);
    NextAfter(s, n, p, q);
  }

  /** A text in which the pattern does not occur stays. */
  lemma NothingIsReplaced(s: string, p: string, q: string)
    requires p != "" && forall i | 0 <= i <= |s| :: !Occurs(p, s, i)
    ensures ReplaceAll(s, p, q) == s
  {
    NothingBefore(s, |s|, p, q);
    assert s[..|s|] == s && s[|s|..] == "";
  }

  // ---- the condition ---------------------------------------------------------------------------

  predicate Marker(r: Replacer, c: char) { exists p | p in r :: p != "" && p[0] == c }

  /** After its first character the text contains no marker. */
  predicate Clean(r: Replacer, t: string) { forall i | 1 <= i < |t| :: !Marker(r, t[i]) }

  /** The two texts differ at some position that both have: neither is a prefix of the other. */
  predicate Differ(a: string, b: string) { exists k | 0 <= k < |a| && k < |b| :: a[k] != b[k] }

  /** Patterns start with distinct markers that occur nowhere else in patterns and replacements, except that a
      replacement may start with the marker of its own pattern. */
  predicate Marked(r: Replacer) {
    && (forall p | p in r :: p != "" && Clean(r, p) && Clean(r, r[p]))
    && (forall p | p in r && r[p] != "" :: r[p][0] == p[0] || !Marker(r, r[p][0]))
    && (forall p, q | p in r && q in r && p[0] == q[0] :: p == q)
  }

  /** No replacement of `r` can complete `p` after a first part of it. */
  predicate TailsApart(r: Replacer, p: string) { forall k, i | k in r && 1 <= i < |p| :: Differ(p[i..], r[k]) }

  /** No replacement can complete another pattern that changes anything. */
  predicate Apart(r: Replacer) { forall p | p in r && r[p] != p :: TailsApart(r - {p}, p) }

  /** No replacement can complete a pattern that changes anything, its own included, after a first part of the
      pattern or from its start. */
  predicate Stable(r: Replacer) {
    forall p | p in r && r[p] != p :: TailsApart(r, p) && (r[p] == "" || Differ(p, r[p]))
  }

  // ---- what the loop computes ------------------------------------------------------------------

  /** All replacements at once, scanning the text from the left. */
  ghost function Simultaneous(r: Replacer, s: string): string
    requires forall p | p in r :: p != ""
    decreases |s|
  {
    if s == "" then ""
    else if exists p :: p in r && p <= s then
      var p :| p in r && p <= s;
      r[p] + Simultaneous(r, s[|p|..])
    else [s[0]] + Simultaneous(r, s[1..])
  }

  lemma SimultaneousMatch(r: Replacer, s: string, p: string)
    requires Marked(r) && p in r && p <= s
    ensures Simultaneous(r, s) == r[p] + Simultaneous(r, s[|p|..])
  {
  }

  /** Text without markers passes through. */
  lemma {:induction false} SimultaneousSkips(r: Replacer, w: string, t: string)
    requires Marked(r) && forall i | 0 <= i < |w| :: !Marker(r, w[i])
    ensures Simultaneous(r, w + t) == w + Simultaneous(r, t)
    decreases |w|
  {
    if w == "" {
      assert w + t == t;
    } else {
      SimultaneousMisses(r, w[0], w[1..] + t);
      SimultaneousSkips(r, w[1..], t);
      Regroup(w, t);
      Regroup(w, Simultaneous(r, t));
    }
  }

  lemma SimultaneousMisses(r: Replacer, c: char, s: string)
    requires Marked(r) && !Marker(r, c)
    ensures Simultaneous(r, [c] + s) == [c] + Simultaneous(r, s)
  {
  }

  lemma {:induction false} ReplaceSkips(w: string, t: string, p: string, q: string)
    requires p != "" && p[0] !in w
    ensures ReplaceAll(w + t, p, q) == w + ReplaceAll(t, p, q)
    decreases |w|
  {
    if w == "" {
      assert w + t == t;
    } else {
      var rest := w[1..] + t;
      ReplaceSkips(w[1..], t, p, q);
      ReplaceMisses(w[0], rest, p, q);
      Regroup(w, t);
      Regroup(w, ReplaceAll(t, p, q));
    }
  }

  lemma Regroup(w: string, t: string)
    requires w != ""
    ensures w + t == [w[0]] + (w[1..] + t)
  {
  }

  lemma ReplaceMisses(c: char, s: string, p: string, q: string)
    requires p != "" && c != p[0]
    ensures ReplaceAll([c] + s, p, q) == [c] + ReplaceAll(s, p, q)
  {
  }

  /** Replacing does not create or destroy a marker-free prefix that no replacement can complete. */
  lemma {:induction false} CleanPrefix(r: Replacer, w: string, t: string)
    requires Marked(r) && forall i | 0 <= i < |w| :: !Marker(r, w[i])
    requires forall k, i | k in r && 0 <= i < |w| :: Differ(w[i..], r[k])
    ensures w <= Simultaneous(r, t) <==> w <= t
    decreases |w|
  {
    if w != "" && t != "" {
      if exists p :: p in r && p <= t {
        var p :| p in r && p <= t;
        SimultaneousMatch(r, t, p);
        assert t[0] == p[0] && Marker(r, t[0]);
        assert w[0..] == w && Differ(w, r[p]);
        DifferentStart(w, r[p], Simultaneous(r, t[|p|..]));
      } else {
        var u := Simultaneous(r, t);
        assert u == [t[0]] + Simultaneous(r, t[1..]);
        assert forall i | 0 <= i < |w[1..]| :: w[1..][i..] == w[i + 1..];
        CleanPrefix(r, w[1..], t[1..]);
        assert u[1..] == Simultaneous(r, t[1..]);
        PrefixTail(w, t);
        PrefixTail(w, u);
      }
    }
  }

  lemma DifferentStart(w: string, q: string, t: string)
    requires Differ(w, q)
    ensures !(w <= q + t)
  {
    var d :| 0 <= d < |w| && d < |q| && w[d] != q[d];
    assert (q + t)[d] == q[d];
  }

  lemma PrefixTail(w: string, t: string)
    requires w != "" && t != ""
    ensures w <= t <==> w[0] == t[0] && w[1..] <= t[1..]
  {
  }

  lemma CleanTail(r: Replacer, p: string)
    requires p != "" && Clean(r, p)
    ensures forall i | 0 <= i < |p[1..]| :: !Marker(r, p[1..][i])
  {
  }

  /** A pattern whose marker is not one of `r` matches the rewritten text where it matched the text. */
  lemma MatchAfter(r: Replacer, s: string, p: string)
    requires Marked(r) && s != "" && p != "" && Clean(r, p) && TailsApart(r, p) && !(exists q :: q in r && q <= s)
    ensures Simultaneous(r, s) == [s[0]] + Simultaneous(r, s[1..])
    ensures p <= Simultaneous(r, s) <==> p <= s
  {
    var u := Simultaneous(r, s);
    assert u == [s[0]] + Simultaneous(r, s[1..]) && u[1..] == Simultaneous(r, s[1..]);
    CleanTail(r, p);
    assert forall i | 0 <= i < |p[1..]| :: p[1..][i..] == p[i + 1..];
    CleanPrefix(r, p[1..], s[1..]);
    PrefixTail(p, s);
    PrefixTail(p, u);
  }

  // ---- one more replacement --------------------------------------------------------------------

  predicate Part(r: Replacer, all: Replacer) { forall p | p in r :: p in all && all[p] == r[p] }

  lemma PartMarked(r: Replacer, all: Replacer)
    requires Marked(all) && Part(r, all)
    ensures Marked(r)
    ensures forall c: char :: Marker(r, c) ==> Marker(all, c)
  {
  }

  /** The marker of another pattern does not occur in a pattern or in its replacement. */
  lemma ForeignMarker(all: Replacer, p: string, other: string)
    requires Marked(all) && p in all && other in all && p != other
    ensures p[0] !in other && p[0] !in all[other]
  {
  }

  /** Applying one more replacement to the simultaneous result adds it to the set. */
  lemma {:induction false} AddOne(r: Replacer, p: string, q: string, s: string)
    requires p !in r && Marked(r[p := q]) && TailsApart(r, p)
    ensures Marked(r)
    ensures ReplaceAll(Simultaneous(r, s), p, q) == Simultaneous(r[p := q], s)
    decreases |s|
  {
    var all := r[p := q];
    PartMarked(r, all);
    assert p in all && p != "";
    if s == "" {
    } else if k :| k in r && k <= s {
      SimultaneousMatch(r, s, k);
      SimultaneousMatch(all, s, k);
      ForeignMarker(all, p, k);
      ReplaceSkips(r[k], Simultaneous(r, s[|k|..]), p, q);
      AddOne(r, p, q, s[|k|..]);
    } else if p <= s {
      var t := s[|p|..];
      assert s == p + t;
      SkipsPattern(all, r, p, t);
      ReplaceMatch(p, Simultaneous(r, t), q);
      SimultaneousMatch(all, s, p);
      AddOne(r, p, q, t);
    } else {
      MatchAfter(r, s, p) by { assert Clean(all, p); }
      assert !(exists k :: k in all && k <= s);
      assert Simultaneous(r, s)[1..] == Simultaneous(r, s[1..]);
      AddOne(r, p, q, s[1..]);
    }
  }

  /** A pattern that is replaced by itself adds nothing. */
  lemma {:induction false} AddSelf(r: Replacer, p: string, s: string)
    requires p !in r && Marked(r[p := p])
    ensures Marked(r) && Simultaneous(r[p := p], s) == Simultaneous(r, s)
    decreases |s|
  {
    var all := r[p := p];
    PartMarked(r, all);
    assert p in all && p != "";
    if s == "" {
    } else if k :| k in r && k <= s {
      SimultaneousMatch(r, s, k);
      SimultaneousMatch(all, s, k);
      AddSelf(r, p, s[|k|..]);
    } else if p <= s {
      var t := s[|p|..];
      assert s == p + t;
      SkipsPattern(all, r, p, t);
      SimultaneousMatch(all, s, p);
      AddSelf(r, p, t);
    } else {
      assert !(exists k :: k in all && k <= s);
      AddSelf(r, p, s[1..]);
    }
  }

  /** One pass of the loop, whether or not the pattern changes anything. */
  lemma AddNext(r: Replacer, p: string, q: string, s: string)
    requires p !in r && Marked(r[p := q]) && (q == p || TailsApart(r, p))
    ensures Marked(r)
    ensures ReplaceAll(Simultaneous(r, s), p, q) == Simultaneous(r[p := q], s)
  {
    assert p in r[p := q] && p != "";
    if q == p {
      AddSelf(r, p, s);
      ReplaceBySelf(Simultaneous(r, s), p);
    } else {
      AddOne(r, p, q, s);
    }
  }

  lemma SkipsPattern(all: Replacer, r: Replacer, p: string, t: string)
    requires Marked(all) && Part(r, all) && Marked(r) && p in all && p !in r
    ensures Simultaneous(r, p + t) == p + Simultaneous(r, t)
  {
    PartMarked(r, all);
    assert forall k | k in r :: k in all && k[0] != p[0];
    assert forall i | 0 <= i < |p| :: !Marker(r, p[i]);
    SimultaneousSkips(r, p, t);
  }

  /** A replacement that was already made finds nothing to do. */
  lemma {:induction false} NothingLeft(r: Replacer, p: string, s: string)
    requires Marked(r) && p in r && TailsApart(r, p) && (r[p] == "" || Differ(p, r[p]))
    ensures ReplaceAll(Simultaneous(r, s), p, r[p]) == Simultaneous(r, s)
    decreases |s|
  {
    if s == "" {
    } else if k :| k in r && k <= s {
      SimultaneousMatch(r, s, k);
      var rest := Simultaneous(r, s[|k|..]);
      NothingLeft(r, p, s[|k|..]);
      if k == p {
        OwnLeft(r, p, rest);
      } else {
        ForeignMarker(r, p, k);
        ReplaceSkips(r[k], rest, p, r[p]);
      }
    } else {
      MatchAfter(r, s, p);
      assert Simultaneous(r, s)[1..] == Simultaneous(r, s[1..]);
      NothingLeft(r, p, s[1..]);
    }
  }

  /** A replacement does not match its own pattern, at its start or later. */
  lemma OwnLeft(r: Replacer, p: string, rest: string)
    requires Marked(r) && p in r && (r[p] == "" || Differ(p, r[p]))
    ensures ReplaceAll(r[p] + rest, p, r[p]) == r[p] + ReplaceAll(rest, p, r[p])
  {
    var q := r[p];
    if q == "" {
      assert q + rest == rest;
    } else {
      assert p[0] !in q[1..] by {
        CleanTail(r, q);
        assert Marker(r, p[0]);
      }
      DifferentStart(p, q, rest);
      Regroup(q, rest);
      ReplaceStep(q[0], q[1..] + rest, p, q);
      ReplaceSkips(q[1..], rest, p, q);
      Regroup(q, ReplaceAll(rest, p, q));
    }
  }

  lemma ReplaceStep(c: char, s: string, p: string, q: string)
    requires p != "" && !(p <= [c] + s)
    ensures ReplaceAll([c] + s, p, q) == [c] + ReplaceAll(s, p, q)
  {
    assert ([c] + s)[1..] == s;
  }

  // ---- the loop --------------------------------------------------------------------------------

  lemma EmptyReplacer(s: string)
    ensures Simultaneous(map[], s) == s
  {
  }

  /** Applying the replacements one after the other. */
  function InOrder(contents: string, order: seq<string>, replacer: Replacer): string
    requires forall p | p in order :: p in replacer
  {
    if order == [] then contents
    else
      var last := order[|order| - 1];
      ReplaceAll(InOrder(contents, order[..|order| - 1], replacer), last, replacer[last])
  }

  ghost predicate IsOrder(order: seq<string>, replacer: Replacer) {
    (forall p :: p in order <==> p in replacer) && Distinct(order)
  }

  function Done(order: seq<string>, replacer: Replacer): Replacer
    requires forall p | p in order :: p in replacer
  {
    map p | p in order :: replacer[p]
  }

  lemma DoneSnoc(init: seq<string>, last: string, replacer: Replacer)
    requires last in replacer && forall p | p in init :: p in replacer
    ensures Done(init + [last], replacer) == Done(init, replacer)[last := replacer[last]]
  {
  }

  lemma DoneApart(init: seq<string>, last: string, replacer: Replacer)
    requires Apart(replacer) && last in replacer && last !in init && forall p | p in init :: p in replacer
    ensures replacer[last] == last || TailsApart(Done(init, replacer), last)
  {
    if replacer[last] != last {
      assert TailsApart(replacer - {last}, last);
      forall k, i | k in Done(init, replacer) && 1 <= i < |last| ensures Differ(last[i..], Done(init, replacer)[k]) {
        assert k in replacer - {last};
      }
    }
  }

  lemma {:induction false} PrefixInOrder(contents: string, order: seq<string>, replacer: Replacer)
    requires Marked(replacer) && Apart(replacer) && Distinct(order) && forall p | p in order :: p in replacer
    ensures Marked(Done(order, replacer))
    ensures InOrder(contents, order, replacer) == Simultaneous(Done(order, replacer), contents)
    decreases |order|
  {
    PartMarked(Done(order, replacer), replacer);
    if order == [] {
      EmptyReplacer(contents);
    } else {
      var init, last := order[..|order| - 1], order[|order| - 1];
      LastApart(order);
      LastOfDistinct(order);
      PrefixInOrder(contents, init, replacer);
      DoneSnoc(init, last, replacer);
      DoneApart(init, last, replacer);
      AddNext(Done(init, replacer), last, replacer[last], contents);
    }
  }

  /** Every order of a marked set of replacements that stay apart gives the same text. */
  lemma AnyOrder(contents: string, order: seq<string>, replacer: Replacer)
    requires Marked(replacer) && Apart(replacer) && IsOrder(order, replacer)
    ensures InOrder(contents, order, replacer) == Simultaneous(replacer, contents)
  {
    PrefixInOrder(contents, order, replacer);
    assert Done(order, replacer) == replacer;
  }

  /** The loop over one file's replacements, in whatever order the map yields them; the file is written
      back only if it changed. */
  method ReplaceInFile(contents: string, replacer: Replacer)
    returns (newContents: string, write: bool, ghost order: seq<string>)
    ensures IsOrder(order, replacer) && newContents == InOrder(contents, order, replacer)
    ensures write <==> newContents != contents
    ensures Marked(replacer) && Apart(replacer) ==> newContents == Simultaneous(replacer, contents)
  {
    newContents := contents;
    var left := replacer.Keys;
    order := [];
    while left != {}
      invariant left <= replacer.Keys
      invariant forall p :: p in order <==> p in replacer && p !in left
      invariant Distinct(order)
      invariant newContents == InOrder(contents, order, replacer)
    {
      var p :| p in left;
      left := left - {p};
      newContents := ReplaceAll(newContents, p, replacer[p]);
      assert (order + [p])[..|order|] == order;
      order := order + [p];
    }
    write := newContents != contents;
    if Marked(replacer) && Apart(replacer) {
      AnyOrder(contents, order, replacer);
    }
  }

  lemma PutBack(r: Replacer, p: string)
    requires p in r
    ensures (r - {p})[p := r[p]] == r
  {
  }

  lemma {:induction false} ReplaceBySelf(s: string, p: string)
    requires p != ""
    ensures ReplaceAll(s, p, p) == s
    decreases |s|
  {
    if p <= s {
      ReplaceMatch(p, s[|p|..], p);
      ReplaceBySelf(s[|p|..], p);
      assert s == p + s[|p|..];
    } else if s != "" {
      assert s == [s[0]] + s[1..];
      ReplaceStep(s[0], s[1..], p, p);
      ReplaceBySelf(s[1..], p);
    }
  }

  lemma ReplaceMatch(p: string, t: string, q: string)
    requires p != ""
    ensures ReplaceAll(p + t, p, q) == q + ReplaceAll(t, p, q)
  {
    assert (p + t)[|p|..] == t;
  }

  lemma {:induction false} PartIdempotent(part: Replacer, r: Replacer, s: string)
    requires Marked(r) && Stable(r) && Part(part, r) && Marked(part)
    ensures Simultaneous(part, Simultaneous(r, s)) == Simultaneous(r, s)
    decreases |part|
  {
    if part == map[] {
      EmptyReplacer(Simultaneous(r, s));
    } else {
      var p :| p in part;
      var less := part - {p};
      PartMarked(less, part);
      PartIdempotent(less, r, s);
      PutBack(part, p);
      AddNext(less, p, r[p], Simultaneous(r, s));
      if p == r[p] {
        ReplaceBySelf(Simultaneous(r, s), p);
      } else {
        NothingLeft(r, p, s);
      }
    }
  }

  // ---- the conditions are exact ----------------------------------------------------------------

  predicate Unmarked(r: Replacer, t: string) { forall i | 0 <= i < |t| :: !Marker(r, t[i]) }

  /** What of `p` the replacement of `k` leaves to be added after `p[..i]`. */
  function RestOf(r: Replacer, p: string, k: string, i: nat): string
    requires k in r && i <= |p|
  {
    if |p| - i <= |r[k]| then "" else p[i + |r[k]|..]
  }

  /** A first part of `p`, the pattern `k`, and what makes the replacement of `k` complete `p`. */
  function Completing(r: Replacer, p: string, k: string, i: nat): string
    requires k in r && i <= |p|
  {
    p[..i] + k + RestOf(r, p, k, i)
  }

  /** What follows `p` once the replacement of `k` has completed it. */
  function Surplus(r: Replacer, p: string, k: string, i: nat): string
    requires k in r && i <= |p|
  {
    if |p| - i <= |r[k]| then r[k][|p| - i..] else ""
  }

  /** The replacement of `k` can complete `p` after `p[..i]`. */
  predicate Completes(r: Replacer, p: string, k: string, i: nat) {
    p in r && k in r && 1 <= i < |p| && !Differ(p[i..], r[k])
  }

  lemma SurplusUnmarked(r: Replacer, p: string, k: string, i: nat)
    requires Marked(r) && Completes(r, p, k, i)
    ensures Unmarked(r, Surplus(r, p, k, i)) && Unmarked(r, p[i..]) && Unmarked(r, p[1..i])
  {
    assert Clean(r, p) && Clean(r, r[k]);
  }

  /** Putting `x` after `p[..i]`, where it agrees with `p`. */
  lemma Overlaps(p: string, i: nat, x: string)
    requires i <= |p| && !Differ(p[i..], x)
    ensures if |p| - i <= |x| then p[..i] + x + "" == p + x[|p| - i..] else p[..i] + x + p[i + |x|..] == p + ""
  {
    var tail := p[i..];
    assert p == p[..i] + tail;
    if |p| - i <= |x| {
      assert tail == x[..|p| - i] by { SamePrefix(tail, x); }
      assert x == tail + x[|p| - i..];
    } else {
      assert x == tail[..|x|] by { SamePrefix(x, tail); }
      assert p[i + |x|..] == tail[|x|..];
    }
  }

  lemma RestUnmarked(r: Replacer, p: string, k: string, i: nat)
    requires k in r && i <= |p| && Unmarked(r, p[i..])
    ensures Unmarked(r, RestOf(r, p, k, i))
  {
    if |p| - i > |r[k]| {
      assert p[i + |r[k]|..] == p[i..][|r[k]|..];
    }
  }

  /** Replacing `k` there gives `p` and the surplus. */
  lemma Completed(r: Replacer, p: string, k: string, i: nat)
    requires Marked(r) && Completes(r, p, k, i)
    ensures p[..i] + r[k] + RestOf(r, p, k, i) == p + Surplus(r, p, k, i) && Unmarked(r, RestOf(r, p, k, i))
  {
    SurplusUnmarked(r, p, k, i);
    RestUnmarked(r, p, k, i);
    Overlaps(p, i, r[k]);
  }

  lemma SamePrefix(a: string, b: string)
    requires |a| <= |b| && !(Differ(a, b) || Differ(b, a))
    ensures a == b[..|a|]
  {
  }

  lemma Passes(r: Replacer, p: string, t: string)
    requires Marked(r) && p in r && Unmarked(r, t)
    ensures p[0] !in t && ReplaceAll(t, p, r[p]) == t
  {
    assert Marker(r, p[0]);
    ReplaceSkips(t, "", p, r[p]);
    assert t + "" == t;
  }

  /** In a text made so, `p` does not match, because `k` stands where `p` would go on. */
  lemma NotYet(r: Replacer, p: string, k: string, i: nat)
    requires Marked(r) && Completes(r, p, k, i)
    ensures !(p <= Completing(r, p, k, i)) && Completing(r, p, k, i)[0] == p[0]
  {
    var text := Completing(r, p, k, i);
    SurplusUnmarked(r, p, k, i);
    assert text[i] == k[0] && Marker(r, k[0]) && p[i] == p[i..][0];
  }

  // ---- order independence ----------------------------------------------------------------------

  /** Replacing `k` completes `p`. */
  lemma CompletesIt(r: Replacer, p: string, k: string, i: nat)
    requires Marked(r) && Completes(r, p, k, i) && p != k
    ensures ReplaceAll(Completing(r, p, k, i), k, r[k]) == p + Surplus(r, p, k, i)
  {
    var rest := RestOf(r, p, k, i);
    Completed(r, p, k, i);
    ForeignMarker(r, k, p);
    Assoc(p[..i], k, rest);
    ReplaceSkips(p[..i], k + rest, k, r[k]);
    ReplaceMatch(k, rest, r[k]);
    Passes(r, k, rest);
    Assoc(p[..i], r[k], rest);
  }

  /** Then `p` is replaced too. */
  lemma ThenReplaced(r: Replacer, p: string, k: string, i: nat)
    requires Marked(r) && Completes(r, p, k, i)
    ensures ReplaceAll(p + Surplus(r, p, k, i), p, r[p]) == r[p] + Surplus(r, p, k, i)
  {
    SurplusUnmarked(r, p, k, i);
    ReplaceMatch(p, Surplus(r, p, k, i), r[p]);
    Passes(r, p, Surplus(r, p, k, i));
  }

  /** Replacing `p` first does nothing. */
  lemma NothingYet(r: Replacer, p: string, k: string, i: nat)
    requires Marked(r) && Completes(r, p, k, i) && p != k
    ensures ReplaceAll(Completing(r, p, k, i), p, r[p]) == Completing(r, p, k, i)
  {
    var rest := RestOf(r, p, k, i);
    var tail := p[1..i] + (k + rest);
    Completed(r, p, k, i);
    SurplusUnmarked(r, p, k, i);
    ForeignMarker(r, p, k);
    Passes(r, p, rest);
    Passes(r, p, p[1..i]);
    NotYet(r, p, k, i);
    HeadApart(p, k, rest, i);
    ReplaceStep(p[0], tail, p, r[p]);
    ReplaceSkips(p[1..i], k + rest, p, r[p]);
    ReplaceSkips(k, rest, p, r[p]);
  }

  lemma HeadApart(p: string, k: string, rest: string, i: nat)
    requires 1 <= i <= |p|
    ensures p[..i] + k + rest == [p[0]] + (p[1..i] + (k + rest))
  {
  }

  lemma {:induction false} OthersIdle(contents: string, first: seq<string>, others: seq<string>, r: Replacer)
    requires Marked(r) && (forall p | p in first :: p in r)
    requires forall p | p in others :: p in r && p[0] !in InOrder(contents, first, r)
    ensures InOrder(contents, first + others, r) == InOrder(contents, first, r)
    decreases |others|
  {
    if others == [] {
      assert first + others == first;
    } else {
      var init, last := others[..|others| - 1], others[|others| - 1];
      LastApart(others);
      Assoc(first, init, [last]);
      assert last in others && forall p | p in init :: p in others;
      OthersIdle(contents, first, init, r);
      assert (first + init + [last])[..|first + init|] == first + init;
      var text := InOrder(contents, first, r);
      ReplaceSkips(text, "", last, r[last]);
      assert text + "" == text;
    }
  }

  lemma Enumerate(r: Replacer) returns (order: seq<string>)
    ensures IsOrder(order, r)
  {
    var left := r.Keys;
    order := [];
    while left != {}
      invariant left <= r.Keys && Distinct(order)
      invariant forall p :: p in order <==> p in r && p !in left
    {
      var p :| p in left;
      left, order := left - {p}, order + [p];
    }
  }

  lemma TwoFirst(contents: string, a: string, b: string, r: Replacer)
    requires a in r && b in r
    ensures InOrder(contents, [a, b], r) == ReplaceAll(ReplaceAll(contents, a, r[a]), b, r[b])
  {
    assert [a, b][..1] == [a] && [a][..0] == [];
    assert InOrder(contents, [], r) == contents;
    assert InOrder(contents, [a], r) == ReplaceAll(contents, a, r[a]);
  }

  lemma MarkersOf(r: Replacer, p: string, t: string, q: string)
    requires Marked(r) && p in r && q in r && p != q && Unmarked(r, t)
    ensures q[0] !in p + t && q[0] !in r[p] + t
  {
    ForeignMarker(r, q, p);
    assert Marker(r, q[0]);
  }

  ghost predicate OrderFree(r: Replacer) {
    forall contents, a, b | IsOrder(a, r) && IsOrder(b, r) :: InOrder(contents, a, r) == InOrder(contents, b, r)
  }

  lemma KFirst(r: Replacer, p: string, k: string, i: nat, others: seq<string>)
    requires Marked(r) && Completes(r, p, k, i) && p != k && forall q | q in others :: q in r && q != p
    ensures InOrder(Completing(r, p, k, i), [k, p] + others, r) == r[p] + Surplus(r, p, k, i)
  {
    CompletesIt(r, p, k, i);
    ThenReplaced(r, p, k, i);
    TwoFirst(Completing(r, p, k, i), k, p, r);
    SurplusUnmarked(r, p, k, i);
    forall q | q in others ensures q[0] !in r[p] + Surplus(r, p, k, i) { MarkersOf(r, p, Surplus(r, p, k, i), q); }
    OthersIdle(Completing(r, p, k, i), [k, p], others, r);
  }

  lemma PFirst(r: Replacer, p: string, k: string, i: nat, others: seq<string>)
    requires Marked(r) && Completes(r, p, k, i) && p != k && forall q | q in others :: q in r && q != p
    ensures InOrder(Completing(r, p, k, i), [p, k] + others, r) == p + Surplus(r, p, k, i)
  {
    NothingYet(r, p, k, i);
    CompletesIt(r, p, k, i);
    TwoFirst(Completing(r, p, k, i), p, k, r);
    SurplusUnmarked(r, p, k, i);
    forall q | q in others ensures q[0] !in p + Surplus(r, p, k, i) { MarkersOf(r, p, Surplus(r, p, k, i), q); }
    OthersIdle(Completing(r, p, k, i), [p, k], others, r);
  }

  lemma TwoThenOthers(r: Replacer, a: string, b: string, others: seq<string>)
    requires a in r && b in r && a != b && IsOrder(others, r - {a} - {b})
    ensures IsOrder([a, b] + others, r)
  {
    var order := [a, b] + others;
    forall p ensures p in order <==> p in r {
      assert p in others <==> p in r - {a} - {b};
    }
    assert a !in others && b !in others;
    forall i, j | 0 <= i < j < |order| ensures order[i] != order[j] {
      if i >= 2 {
        assert order[i] == others[i - 2] && order[j] == others[j - 2];
      } else if j >= 2 {
        assert order[j] == others[j - 2] && order[j] in others;
      }
    }
  }

  /** Two orders of the whole set that give two texts. */
  lemma NotApartDependsOnOrder(r: Replacer, p: string, k: string, i: nat)
    requires Marked(r) && Completes(r, p, k, i) && p != k && r[p] != p
    ensures !OrderFree(r)
  {
    var others := Enumerate(r - {p} - {k});
    assert r - {k} - {p} == r - {p} - {k};
    forall q | q in others ensures q in r && q != p {
      assert q in r - {p} - {k};
    }
    KFirst(r, p, k, i, others);
    PFirst(r, p, k, i, others);
    TwoThenOthers(r, k, p, others);
    TwoThenOthers(r, p, k, others);
    SameStart(r[p], p, Surplus(r, p, k, i));
    DifferentOrders(r, Completing(r, p, k, i), [k, p] + others, [p, k] + others);
  }

  lemma DifferentOrders(r: Replacer, contents: string, a: seq<string>, b: seq<string>)
    requires IsOrder(a, r) && IsOrder(b, r) && InOrder(contents, a, r) != InOrder(contents, b, r)
    ensures !OrderFree(r)
  {
  }

  lemma SameStart(a: string, b: string, t: string)
    ensures a + t == b + t ==> a == b
  {
    if a + t == b + t {
      assert a == (a + t)[..|a + t| - |t|] && b == (b + t)[..|b + t| - |t|];
    }
  }

  /** The text does not depend on the order of the loop if and only if no replacement can complete another
      pattern that changes anything. */
  lemma OrderFreeExactly(r: Replacer)
    requires Marked(r)
    ensures OrderFree(r) <==> Apart(r)
  {
    if Apart(r) {
      forall contents, a, b | IsOrder(a, r) && IsOrder(b, r)
        ensures InOrder(contents, a, r) == InOrder(contents, b, r)
      {
        AnyOrder(contents, a, r);
        AnyOrder(contents, b, r);
      }
    } else {
      var p :| p in r && r[p] != p && !TailsApart(r - {p}, p);
      var k, i :| k in r - {p} && 1 <= i < |p| && !Differ(p[i..], (r - {p})[k]);
      NotApartDependsOnOrder(r, p, k, i);
    }
  }

  /** Replacements that start with the markers of their own patterns stay apart. */
  lemma OwnStartIsApart(r: Replacer)
    requires Marked(r) && forall p | p in r :: r[p] != "" && r[p][0] == p[0]
    ensures forall p | p in r :: TailsApart(r, p)
    ensures Apart(r)
  {
    forall p, k, i | p in r && k in r && 1 <= i < |p| ensures Differ(p[i..], r[k]) {
      assert Clean(r, p) && Marker(r, k[0]) && p[i..][0] == p[i] != r[k][0];
    }
  }

  /** A concrete set whose two orders give two texts. */
  lemma TwoOrdersTwoTexts()
    ensures var r := map[">ab" := "b", "$b" := "$c"];
      && InOrder("$>ab", [">ab"] + ["$b"], r) == "$c"
      && InOrder("$>ab", ["$b"] + [">ab"], r) == "$b"
  {
    var r := map[">ab" := "b", "$b" := "$c"];
    var x, y := [">ab"], ["$b"];
    assert (x + y)[..1] == x && (y + x)[..1] == y && x[..0] == [] && y[..0] == [];
    assert InOrder("$>ab", [], r) == "$>ab";
    LiteralTexts();
  }

  lemma LiteralTexts()
    ensures ReplaceAll("$>ab", ">ab", "b") == "$b" && ReplaceAll("$b", "$b", "$c") == "$c"
    ensures ReplaceAll("$>ab", "$b", "$c") == "$>ab"
  {
    assert "$>ab"[1..] == ">ab" && ">ab"[3..] == "" && "$b"[2..] == "";
    assert ReplaceAll("", ">ab", "b") == "" && ReplaceAll(">ab", ">ab", "b") == "b";
    assert ">ab"[1..] == "ab" && "ab"[1..] == "b" && "b"[1..] == "";
    assert ReplaceAll("b", "$b", "$c") == "b" && ReplaceAll("ab", "$b", "$c") == "ab" && ReplaceAll(">ab", "$b", "$c")
      == ">ab";
  }

  // ---- idempotence -----------------------------------------------------------------------------

  ghost predicate IdempotentAt(r: Replacer, s: string)
    requires Marked(r)
  {
    Simultaneous(r, Simultaneous(r, s)) == Simultaneous(r, s)
  }

  /** A pattern followed by text without markers becomes its replacement followed by that text. */
  lemma PatternThenPlain(r: Replacer, p: string, t: string)
    requires Marked(r) && p in r && Unmarked(r, t)
    ensures Simultaneous(r, p + t) == r[p] + t
  {
    assert p <= p + t && (p + t)[|p|..] == t;
    SimultaneousMatch(r, p + t, p);
    SimultaneousSkips(r, t, "");
    assert t + "" == t;
  }

  /** One pass completes `p`. */
  lemma FirstPass(r: Replacer, p: string, k: string, i: nat)
    requires Marked(r) && Completes(r, p, k, i)
    ensures Simultaneous(r, Completing(r, p, k, i)) == p + Surplus(r, p, k, i)
  {
    var rest, text := RestOf(r, p, k, i), Completing(r, p, k, i);
    Completed(r, p, k, i);
    SurplusUnmarked(r, p, k, i);
    NotYet(r, p, k, i);
    NoMatch(r, p, text);
    HeadApart(p, k, rest, i);
    assert text[1..] == p[1..i] + (k + rest);
    SimultaneousSkips(r, p[1..i], k + rest);
    PatternThenPlain(r, k, rest);
    HeadApart(p, r[k], rest, i);
  }

  lemma NoMatch(r: Replacer, p: string, text: string)
    requires Marked(r) && p in r && text != "" && text[0] == p[0] && !(p <= text)
    ensures Simultaneous(r, text) == [text[0]] + Simultaneous(r, text[1..])
  {
  }

  /** A second one replaces it. */
  lemma CompletingIsNotIdempotent(r: Replacer, p: string, k: string, i: nat)
    requires Marked(r) && Completes(r, p, k, i) && r[p] != p
    ensures !IdempotentAt(r, Completing(r, p, k, i))
  {
    FirstPass(r, p, k, i);
    SurplusUnmarked(r, p, k, i);
    PatternThenPlain(r, p, Surplus(r, p, k, i));
    SameStart(r[p], p, Surplus(r, p, k, i));
  }

  /** A pattern that is a proper prefix of its replacement grows at every pass, and a replacement that is a
      proper prefix of its pattern can complete a new occurrence of the pattern. */
  lemma PrefixIsNotIdempotent(r: Replacer, p: string) returns (s: string)
    requires Marked(r) && p in r && p != r[p] && r[p] != "" && !Differ(p, r[p])
    ensures !IdempotentAt(r, s)
  {
    var q := r[p];
    PatternThenPlain(r, p, "");
    assert p + "" == p && q + "" == q;
    assert Clean(r, p) && Clean(r, q);
    if |p| < |q| {
      var x := q[|p|..];
      assert q == p + x;
      PatternThenPlain(r, p, x);
      s := p;
    } else {
      var x := p[|q|..];
      assert p == q + x;
      PatternThenPlain(r, p, x);
      s := p + x;
    }
  }

  /** A second pass over a marked set changes no text if and only if no replacement can complete a pattern that
      changes anything, its own included. */
  lemma IdempotentExactly(r: Replacer)
    requires Marked(r)
    ensures (forall s :: IdempotentAt(r, s)) <==> Stable(r)
  {
    if Stable(r) {
      forall s ensures IdempotentAt(r, s) {
        PartIdempotent(r, r, s);
      }
    } else {
      var p :| p in r && r[p] != p && !(TailsApart(r, p) && (r[p] == "" || Differ(p, r[p])));
      if TailsApart(r, p) {
        var s := PrefixIsNotIdempotent(r, p);
      } else {
        var k, i :| k in r && 1 <= i < |p| && !Differ(p[i..], r[k]);
        CompletingIsNotIdempotent(r, p, k, i);
      }
    }
  }

  /** In the terms of the loop: whatever orders two passes take, the second changes nothing. */
  lemma SecondPassChangesNothing(contents: string, first: seq<string>, second: seq<string>, r: Replacer)
    requires Marked(r) && Stable(r) && IsOrder(first, r) && IsOrder(second, r)
    ensures InOrder(InOrder(contents, first, r), second, r) == InOrder(contents, first, r)
  {
    assert Apart(r);
    AnyOrder(contents, first, r);
    AnyOrder(Simultaneous(r, contents), second, r);
    PartIdempotent(r, r, contents);
  }

  // ---- one replacement -------------------------------------------------------------------------

  /** Replacing makes no new start of the pattern, when the replacement starts with a character that the pattern
      does not have. */
  lemma {:induction false} NoNewStart(w: string, t: string, p: string, q: string)
    requires p != "" && q != "" && q[0] !in p && (forall c | c in w :: c in p) && w <= ReplaceAll(t, p, q)
    ensures w <= t
    decreases |t|
  {
    if w != "" && t != "" && !(p <= t) {
      var u := ReplaceAll(t, p, q);
      assert u == [t[0]] + ReplaceAll(t[1..], p, q) && u[1..] == ReplaceAll(t[1..], p, q);
      PrefixTail(w, u);
      PrefixTail(w, t);
      NoNewStart(w[1..], t[1..], p, q);
    }
  }

  /** Any single replacement is idempotent if the pattern does not have its first character and it does not have
      the first character of the pattern. */
  lemma {:induction false} SingleIsIdempotent(s: string, p: string, q: string)
    requires p != "" && q != "" && q[0] !in p && p[0] !in q
    ensures ReplaceAll(ReplaceAll(s, p, q), p, q) == ReplaceAll(s, p, q)
    decreases |s|
  {
    if p <= s {
      SingleIsIdempotent(s[|p|..], p, q);
      ReplaceSkips(q, ReplaceAll(s[|p|..], p, q), p, q);
    } else if s != "" {
      var rest := ReplaceAll(s[1..], p, q);
      SingleIsIdempotent(s[1..], p, q);
      if p <= [s[0]] + rest {
        NoNewStart(p, s, p, q);
      }
      ReplaceStep(s[0], rest, p, q);
    }
  }

  // ---- kind ------------------------------------------------------------------------------------

  const RESOLV := ">" + "/etc/resolv.conf"
  const LOCAL_RESOLV := ">" + "/etc/local-resolv.conf"
  const SNAPSHOTTER_VARIABLE := "{KIND_EXPERIMENTAL" + ("_CONTAINERD" + "_SNAPSHOTTER:-")
  const SNAPSHOTTER := "$" + (SNAPSHOTTER_VARIABLE + "}")
  const OVERLAYFS := "$" + (SNAPSHOTTER_VARIABLE + "overlayfs}")

  /** The replacements of KindLaunchOptions in /usr/local/bin/entrypoint. */
  function KindEntrypoint(): Replacer { map[RESOLV := LOCAL_RESOLV, SNAPSHOTTER := OVERLAYFS] }

  predicate Plain(t: string) { '>' !in t && '$' !in t }

  lemma PlainPaths()
    ensures Plain("/etc/resolv.conf") && Plain("/etc/local-resolv.conf")
  {
  }

  lemma PlainVariable()
    ensures Plain(SNAPSHOTTER_VARIABLE + "}") && Plain(SNAPSHOTTER_VARIABLE + "overlayfs}")
  {
  }

  lemma ReplacementsDiffer()
    ensures Differ(RESOLV, LOCAL_RESOLV) && Differ(SNAPSHOTTER, OVERLAYFS)
  {
    assert RESOLV[6] == 'r' && LOCAL_RESOLV[6] == 'l';
    var k := 1 + |SNAPSHOTTER_VARIABLE|;
    assert SNAPSHOTTER[k] == "}"[0] && OVERLAYFS[k] == "overlayfs}"[0];
  }

  /** The text is a marker followed by plain text. */
  predicate Starts(t: string, c: char) { t != "" && t[0] == c && Plain(t[1..]) }

  lemma TwoMarked(a: string, a': string, b: string, b': string)
    requires Starts(a, '>') && Starts(a', '>') && Starts(b, '$') && Starts(b', '$')
    ensures Marked(map[a := a', b := b'])
  {
    var r := map[a := a', b := b'];
    assert forall c: char | Marker(r, c) :: c == '>' || c == '$';
    forall t | t in {a, a', b, b'} ensures Clean(r, t) {
      assert forall i | 1 <= i < |t| :: t[i] == t[1..][i - 1];
    }
  }

  /** The entrypoint replacements of kind meet all conditions. */
  lemma KindEntrypointMarked()
    ensures Marked(KindEntrypoint()) && Apart(KindEntrypoint()) && Stable(KindEntrypoint())
  {
    PlainPaths();
    PlainVariable();
    ReplacementsDiffer();
    assert RESOLV[1..] == "/etc/resolv.conf" && LOCAL_RESOLV[1..] == "/etc/local-resolv.conf";
    assert SNAPSHOTTER[1..] == SNAPSHOTTER_VARIABLE + "}" && OVERLAYFS[1..] == SNAPSHOTTER_VARIABLE + "overlayfs}";
    TwoMarked(RESOLV, LOCAL_RESOLV, SNAPSHOTTER, OVERLAYFS);
    OwnStartIsApart(KindEntrypoint());
  }
}
