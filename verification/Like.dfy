/** SQLite's LIKE over UTF-8 text, and what the search pattern '%' + query + '%' finds. */
module Likes {
  import opened Seqs
  import opened Json

  // ---------------------------------------------------------------------------------------------
  // Characters

  predicate IsContinuation(c: char) {
    0x80 <= c as int <= 0xbf
  }

  function ContinuationRun(s: string): (n: nat)
    ensures n <= |s| && (forall k :: 0 <= k < n ==> IsContinuation(s[k])) && (n < |s| ==> !IsContinuation(s[n]))
  {
    if s != "" && IsContinuation(s[0]) then 1 + ContinuationRun(s[1..]) else 0
  }

  /** How many bytes the engine takes as one character. */
  function CharLen(s: string): (n: nat)
    requires s != ""
    ensures 1 <= n <= |s|
  {
    if s[0] as int < 0xc0 then 1 else 1 + ContinuationRun(s[1..])
  }

  function Chars(s: string): seq<string> {
    if s == "" then [] else [s[..CharLen(s)]] + Chars(s[CharLen(s)..])
  }

  function LowerChar(c: char): char {
    if 'A' <= c <= 'Z' then (c as int + 32) as char else c
  }

  function Lower(s: string): string {
    Map(s, LowerChar)
  }

  predicate SameChar(a: string, b: string) {
    a == b || (|a| == 1 && |b| == 1 && LowerChar(a[0]) == LowerChar(b[0]))
  }

  /** % is any run, _ any one character, letters match up to ASCII case. */
  predicate Matches(pattern: seq<string>, s: seq<string>)
    decreases |pattern| + |s|
  {
    if pattern == [] then s == []
    else if pattern[0] == "%" then Matches(pattern[1..], s) || (s != [] && Matches(pattern, s[1..]))
    else s != [] && (pattern[0] == "_" || SameChar(pattern[0], s[0])) && Matches(pattern[1..], s[1..])
  }

  predicate Like(pattern: string, s: string) {
    Matches(Chars(pattern), Chars(s))
  }

  lemma FirstCharStays(a: string, b: string)
    requires a != "" && (b == "" || !IsContinuation(b[0]))
    ensures var n := CharLen(a);
      a + b != "" && CharLen(a + b) == n && (a + b)[..n] == a[..n] && (a + b)[n..] == a[n..] + b
  {
    hide ContinuationRun, IsContinuation;
    CutConcat(a, b, 1);
    RunConcat(a[1..], b);
    CutConcat(a, b, CharLen(a));
  }

  lemma CutConcat<T>(a: seq<T>, b: seq<T>, n: nat)
    requires 0 < n <= |a|
    ensures a + b != [] && (a + b)[0] == a[0] && (a + b)[..n] == a[..n] && (a + b)[n..] == a[n..] + b
  {
  }

  lemma {:induction false} CharsConcat(a: string, b: string)
    requires b == "" || !IsContinuation(b[0])
    ensures Chars(a + b) == Chars(a) + Chars(b)
  {
    if a == "" {
      assert a + b == b;
    } else {
      var n := CharLen(a);
      FirstCharStays(a, b);
      hide CharLen;
      CharsConcat(a[n..], b);
      assert [a[..n]] + (Chars(a[n..]) + Chars(b)) == [a[..n]] + Chars(a[n..]) + Chars(b);
    }
  }

  lemma {:induction false} RunConcat(a: string, b: string)
    requires b == "" || !IsContinuation(b[0])
    ensures ContinuationRun(a + b) == ContinuationRun(a)
  {
    if a == "" {
      assert a + b == b;
    } else {
      assert (a + b)[1..] == a[1..] + b;
      RunConcat(a[1..], b);
    }
  }

  lemma PatternChars(query: string)
    ensures Chars("%" + query + "%") == Around(Chars(query))
  {
    var p := "%" + query + "%";
    assert CharLen(p) == 1 && p[..1] == "%" && p[1..] == query + "%";
    CharsConcat(query, "%");
    assert Chars("%") == ["%"] by {
      assert CharLen("%") == 1 && "%"[..1] == "%" && "%"[1..] == "" && Chars("") == [];
    }
  }

  /** An ASCII byte is a character of its own. */
  lemma {:induction false} AsciiInChars(s: string, c: char)
    requires c as int < 0x80
    ensures [c] in Chars(s) <==> c in s
  {
    if s != "" {
      var n := CharLen(s);
      var first, rest := s[..n], s[n..];
      assert s == first + rest;
      AsciiInChars(rest, c);
      assert Chars(s) == [first] + Chars(rest);
      assert c in s <==> c in first || c in rest;
      assert first == [c] <==> c in first by {
        if n == 1 {
          assert first == [s[0]];
        } else {
          assert forall k :: 0 <= k < n ==> first[k] as int >= 0x80;
        }
      }
    }
  }

  lemma {:induction false} AsciiChars(s: string)
    requires forall i :: 0 <= i < |s| ==> s[i] as int < 0x80
    ensures |Chars(s)| == |s| && forall i :: 0 <= i < |s| ==> Chars(s)[i] == [s[i]]
  {
    if s != "" {
      AsciiChars(s[1..]);
    }
  }

  // ---------------------------------------------------------------------------------------------
  // What a pattern finds

  /** The piece of a query fits at i: an underscore fits any character, anything else its own, up to ASCII case. */
  ghost predicate FitsAt(piece: seq<string>, s: seq<string>, i: nat) {
    i + |piece| <= |s| && forall k :: 0 <= k < |piece| ==> piece[k] == "_" || SameChar(piece[k], s[i + k])
  }

  /** The query stands at i as it is, up to ASCII case. */
  ghost predicate OccursAt(query: seq<string>, s: seq<string>, i: nat) {
    i + |query| <= |s| && forall k :: 0 <= k < |query| ==> SameChar(query[k], s[i + k])
  }

  /** Substring up to ASCII case. */
  ghost predicate Contains(s: string, query: string) {
    exists i: nat :: OccursAt(Chars(query), Chars(s), i)
  }

  predicate IsPlain(query: string) {
    '%' !in query && '_' !in query
  }

  /** What stands before the first % of a query, and the rest behind it. */
  function PieceLen(q: seq<string>): (n: nat)
    ensures n <= |q| && "%" !in q[..n] && (n < |q| ==> q[n] == "%")
  {
    if q == [] || q[0] == "%" then 0
    else
      var n := PieceLen(q[1..]);
      assert q[..1 + n] == [q[0]] + q[1..][..n];
      1 + n
  }

  /** The pieces between the % signs. */
  function Pieces(q: seq<string>): seq<seq<string>> {
    var n := PieceLen(q);
    if n == |q| then [q] else [q[..n]] + Pieces(q[n + 1..])
  }

  /** The pieces fit in this order, none overlapping the next. */
  ghost predicate PlacedAt(pieces: seq<seq<string>>, s: seq<string>, at: seq<nat>) {
    && |at| == |pieces|
    && (forall j :: 0 <= j < |pieces| ==> FitsAt(pieces[j], s, at[j]))
    && (forall j :: 0 < j < |pieces| ==> at[j - 1] + |pieces[j - 1]| <= at[j])
  }

  ghost predicate StandIn(pieces: seq<seq<string>>, s: seq<string>) {
    exists at: seq<nat> :: PlacedAt(pieces, s, at)
  }

  lemma {:induction false} AnythingMatches(s: seq<string>)
    ensures Matches(["%"], s)
  {
    if s != [] {
      AnythingMatches(s[1..]);
    } else {
      assert ["%"][1..] == [];
    }
  }

  lemma {:induction false} PercentSkips(p: seq<string>, s: seq<string>)
    requires p != [] && p[0] == "%"
    ensures Matches(p, s) <==> exists i: nat :: i <= |s| && Matches(p[1..], s[i..])
  {
    assert s[0..] == s;
    if s != [] {
      PercentSkips(p, s[1..]);
      forall i: nat | i < |s| ensures s[1..][i..] == s[i + 1..] {}
      if i: nat :| i <= |s| && Matches(p[1..], s[i..]) {
        if i > 0 {
          assert s[1..][i - 1..] == s[i..];
        }
      }
    }
  }

  lemma {:induction false} PieceMatches(piece: seq<string>, p: seq<string>, s: seq<string>)
    requires "%" !in piece
    ensures Matches(piece + p, s) <==> FitsAt(piece, s, 0) && Matches(p, s[|piece|..])
  {
    if piece == [] {
      assert piece + p == p && s[0..] == s;
    } else {
      var q := piece + p;
      assert q[0] == piece[0] && q[1..] == piece[1..] + p;
      if s != [] {
        PieceMatches(piece[1..], p, s[1..]);
        FitsShift(piece, s);
        if |piece| <= |s| {
          assert s[1..][|piece| - 1..] == s[|piece|..];
        }
      }
    }
  }

  lemma FitsShift(piece: seq<string>, s: seq<string>)
    requires piece != [] && s != []
    ensures FitsAt(piece, s, 0) <==> (piece[0] == "_" || SameChar(piece[0], s[0])) && FitsAt(piece[1..], s[1..], 0)
  {
    hide SameChar;
    if FitsAt(piece[1..], s[1..], 0) && (piece[0] == "_" || SameChar(piece[0], s[0])) {
      forall k | 0 <= k < |piece| ensures piece[k] == "_" || SameChar(piece[k], s[k]) {
        if k > 0 { assert piece[1..][k - 1] == piece[k] && s[1..][k - 1] == s[k]; }
      }
    }
    if FitsAt(piece, s, 0) {
      forall k | 0 <= k < |piece| - 1 ensures piece[1..][k] == "_" || SameChar(piece[1..][k], s[1..][k]) {
        assert piece[1..][k] == piece[k + 1] && s[1..][k] == s[k + 1];
      }
    }
  }

  lemma FitsIn(piece: seq<string>, s: seq<string>, i: nat, j: nat)
    requires i <= |s|
    ensures FitsAt(piece, s[i..], j) <==> FitsAt(piece, s, i + j)
  {
    hide SameChar;
    if i + j + |piece| <= |s| {
      assert forall k {:trigger piece[k]} :: 0 <= k < |piece| ==> s[i..][j + k] == s[i + j + k];
    }
  }

  lemma PlacedInTail(pieces: seq<seq<string>>, s: seq<string>, at: seq<nat>, i: nat)
    requires i <= |s| && PlacedAt(pieces, s[i..], at)
    ensures PlacedAt(pieces, s, seq(|at|, j requires 0 <= j < |at| => i + at[j]))
  {
    hide FitsAt;
    var up := seq(|at|, j requires 0 <= j < |at| => i + at[j]);
    forall j | 0 <= j < |pieces| ensures FitsAt(pieces[j], s, up[j]) {
      FitsIn(pieces[j], s, i, at[j]);
    }
  }

  /** One piece more, in front of what stands behind it. */
  lemma PlacedSplits(piece: seq<string>, rest: seq<seq<string>>, s: seq<string>, at: seq<nat>) returns (down: seq<nat>)
    requires PlacedAt([piece] + rest, s, at)
    ensures FitsAt(piece, s, at[0]) && at[0] + |piece| <= |s| && PlacedAt(rest, s[at[0] + |piece|..], down)
  {
    var all, i := [piece] + rest, at[0] + |piece|;
    assert all[0] == piece && FitsAt(all[0], s, at[0]);
    forall k | 0 < k < |all| ensures at[k] >= i {
      PlacedLater(all, s, at, k);
    }
    down := seq(|rest|, j requires 0 <= j < |rest| => at[j + 1] - i);
    hide FitsAt;
    forall j | 0 <= j < |rest| ensures FitsAt(rest[j], s[i..], down[j]) {
      assert all[j + 1] == rest[j];
      FitsIn(rest[j], s, i, down[j]);
    }
    forall j | 0 < j < |rest| ensures down[j - 1] + |rest[j - 1]| <= down[j] {
      assert all[j + 1 - 1] == rest[j - 1] && all[j + 1] == rest[j];
    }
  }

  lemma {:induction false} PlacedLater(all: seq<seq<string>>, s: seq<string>, at: seq<nat>, j: nat)
    requires PlacedAt(all, s, at) && 0 < j < |all|
    ensures at[j] >= at[0] + |all[0]|
  {
    hide FitsAt;
    if j > 1 { PlacedLater(all, s, at, j - 1); }
    assert at[j - 1] + |all[j - 1]| <= at[j];
  }

  lemma PlacedJoins(piece: seq<string>, rest: seq<seq<string>>, s: seq<string>, i: nat, at: seq<nat>)
    requires FitsAt(piece, s, i) && PlacedAt(rest, s[i + |piece|..], at)
    ensures exists up :: PlacedAt([piece] + rest, s, up)
  {
    var n := i + |piece|;
    PlacedInTail(rest, s, at, n);
    var up := [i] + seq(|at|, j requires 0 <= j < |at| => n + at[j]);
    hide FitsAt;
    var all := [piece] + rest;
    forall j | 0 <= j < |all| ensures FitsAt(all[j], s, up[j]) {
      if j > 0 { assert all[j] == rest[j - 1] && up[j] == n + at[j - 1]; }
    }
    forall j | 0 < j < |all| ensures up[j - 1] + |all[j - 1]| <= up[j] {
      if j > 1 { assert all[j - 1] == rest[j - 2] && up[j] == n + at[j - 1] && up[j - 1] == n + at[j - 2]; }
    }
    assert PlacedAt(all, s, up);
  }

  /** The first piece fits somewhere, and the others behind it. */
  ghost predicate InOrder(pieces: seq<seq<string>>, s: seq<string>)
    decreases |pieces|
  {
    pieces == [] || exists i: nat :: NextAt(pieces, s, i)
  }

  ghost predicate NextAt(pieces: seq<seq<string>>, s: seq<string>, i: nat)
    requires pieces != []
    decreases |pieces|, 0
  {
    i + |pieces[0]| <= |s| && FitsAt(pieces[0], s, i) && InOrder(pieces[1..], s[i + |pieces[0]|..])
  }

  /** Saying where each piece stands comes to the same. */
  lemma {:induction false} InOrderIsPlaced(pieces: seq<seq<string>>, s: seq<string>)
    ensures InOrder(pieces, s) <==> StandIn(pieces, s)
    decreases |pieces|
  {
    hide FitsAt;
    if pieces == [] {
      assert PlacedAt(pieces, s, []);
    } else {
      var piece, rest := pieces[0], pieces[1..];
      assert pieces == [piece] + rest;
      if i: nat :| NextAt(pieces, s, i) {
        InOrderIsPlaced(rest, s[i + |piece|..]);
        var at :| PlacedAt(rest, s[i + |piece|..], at);
        PlacedJoins(piece, rest, s, i, at);
      }
      if at :| PlacedAt(pieces, s, at) {
        var down := PlacedSplits(piece, rest, s, at);
        InOrderIsPlaced(rest, s[at[0] + |piece|..]);
        assert NextAt(pieces, s, at[0]);
      }
    }
  }

  /** % in front, the query, % behind. */
  function Around(q: seq<string>): seq<string> {
    ["%"] + (q + ["%"])
  }

  lemma Regroup<T>(q: seq<T>, n: nat, e: T)
    requires n < |q|
    ensures q + [e] == q[..n] + ([q[n]] + (q[n + 1..] + [e]))
  {
  }

  lemma Uncons<T>(x: T, q: seq<T>)
    ensures ([x] + q)[0] == x && ([x] + q)[1..] == q
  {
  }

  lemma WholeSeq<T>(q: seq<T>)
    ensures q[..|q|] == q && q[0..] == q
  {
  }

  /** What is left of the pattern behind the first piece. */
  function Behind(q: seq<string>): seq<string> {
    var n := PieceLen(q);
    if n < |q| then Around(q[n + 1..]) else ["%"]
  }

  lemma AfterPercent(q: seq<string>)
    ensures Around(q) != [] && Around(q)[0] == "%" && Around(q)[1..] == q[..PieceLen(q)] + Behind(q)
  {
    var n := PieceLen(q);
    Uncons("%", q + ["%"]);
    assert Around(q)[1..] == q + ["%"];
    if n < |q| {
      Regroup(q, n, "%");
      assert Behind(q) == ["%"] + (q[n + 1..] + ["%"]);
    } else {
      WholeSeq(q);
    }
    hide Around, Behind;
  }

  lemma SliceOfSlice<T>(s: seq<T>, i: nat, n: nat)
    requires i + n <= |s|
    ensures s[i..][n..] == s[i + n..]
  {
  }

  /** The first piece fits at i, and the rest of the query is found behind it. */
  ghost predicate FirstAt(q: seq<string>, s: seq<string>, i: nat) {
    var n := PieceLen(q);
    i + n <= |s| && FitsAt(q[..n], s, i) && Matches(Behind(q), s[i + n..])
  }

  lemma FirstHere(q: seq<string>, s: seq<string>, i: nat)
    requires i <= |s|
    ensures Matches(Around(q)[1..], s[i..]) <==> FirstAt(q, s, i)
  {
    hide Matches, Around, SameChar, Behind;
    var n := PieceLen(q);
    AfterPercent(q);
    PieceMatches(q[..n], Behind(q), s[i..]);
    FitsIn(q[..n], s, i, 0);
    if i + n <= |s| {
      SliceOfSlice(s, i, n);
    }
  }

  /** The first piece is found somewhere, and the rest of the query behind it. */
  lemma FirstPiece(q: seq<string>, s: seq<string>)
    ensures Matches(Around(q), s) <==> exists i: nat :: i <= |s| && FirstAt(q, s, i)
  {
    hide Matches, FirstAt, Around;
    AfterPercent(q);
    PercentSkips(Around(q), s);
    forall i: nat | i <= |s| ensures Matches(Around(q)[1..], s[i..]) <==> FirstAt(q, s, i) {
      FirstHere(q, s, i);
    }
  }

  lemma FirstIsNext(q: seq<string>, s: seq<string>, i: nat)
    requires var n := PieceLen(q);
      n < |q| && i + n <= |s| ==> (Matches(Around(q[n + 1..]), s[i + n..]) <==> InOrder(Pieces(q[n + 1..]), s[i + n..]))
    ensures Pieces(q) != [] && (FirstAt(q, s, i) <==> NextAt(Pieces(q), s, i))
  {
    hide FitsAt, Matches, Around, Pieces;
    PiecesOf(q);
    if PieceLen(q) == |q| && i + |q| <= |s| {
      AnythingMatches(s[i + |q|..]);
    }
  }

  lemma {:induction false} MatchesIffInOrder(q: seq<string>, s: seq<string>)
    ensures Matches(Around(q), s) <==> InOrder(Pieces(q), s)
    decreases |q|
  {
    hide FitsAt, Matches, Around, Behind, FirstAt, Pieces;
    var n := PieceLen(q);
    FirstPiece(q, s);
    PiecesOf(q);
    forall i: nat ensures FirstAt(q, s, i) <==> NextAt(Pieces(q), s, i) {
      if n < |q| && i + n <= |s| {
        MatchesIffInOrder(q[n + 1..], s[i + n..]);
      }
      FirstIsNext(q, s, i);
    }
  }

  lemma PiecesOf(q: seq<string>)
    ensures var n := PieceLen(q);
      Pieces(q) != [] && Pieces(q)[0] == q[..n] && Pieces(q)[1..] == if n < |q| then Pieces(q[n + 1..]) else []
  {
    if PieceLen(q) < |q| {
      Uncons(q[..PieceLen(q)], Pieces(q[PieceLen(q) + 1..]));
    } else {
      WholeSeq(q);
    }
  }

  /**
   What a search finds, for every query and every message: the pieces of the query between its % signs stand in the
   message one after the other without overlap, an underscore standing for any one character.
  */
  lemma SearchFindsThePieces(query: string, s: string)
    ensures Like("%" + query + "%", s) <==> StandIn(Pieces(Chars(query)), Chars(s))
  {
    hide Matches, Around, StandIn;
    var q, t := Chars(query), Chars(s);
    PatternChars(query);
    MatchesIffInOrder(q, t);
    InOrderIsPlaced(Pieces(q), t);
  }

  /** For a query without %: a place where every character is an underscore or the message's own, up to ASCII case. */
  lemma UnderscoreIsAnyCharacter(query: string, s: string)
    requires '%' !in query
    ensures Like("%" + query + "%", s) <==> exists i: nat :: FitsAt(Chars(query), Chars(s), i)
  {
    var q := Chars(query);
    AsciiInChars(query, '%');
    assert PieceLen(q) == |q|;
    PatternChars(query);
    hide Matches, Chars, SameChar;
    FirstPiece(q, Chars(s));
    WholeSeq(q);
    forall i: nat | i + |q| <= |Chars(s)| ensures FitsAt(q, Chars(s), i) <==> FirstAt(q, Chars(s), i) {
      AnythingMatches(Chars(s)[i + |q|..]);
    }
  }

  /** For a query without wildcards the search pattern is substring search, for every message. */
  lemma LikeIsSubstring(query: string, s: string)
    requires IsPlain(query)
    ensures Like("%" + query + "%", s) <==> Contains(s, query)
  {
    UnderscoreIsAnyCharacter(query, s);
    AsciiInChars(query, '_');
    hide SameChar;
    forall i: nat ensures FitsAt(Chars(query), Chars(s), i) <==> OccursAt(Chars(query), Chars(s), i) {}
  }

  lemma {:induction false} OccurrenceMatches(q: seq<string>, s: seq<string>)
    requires OccursAt(q, s, 0)
    ensures Matches(q + ["%"], s)
  {
    if q == [] {
      assert q + ["%"] == ["%"];
      AnythingMatches(s);
    } else {
      var p := q + ["%"];
      assert p[0] == q[0] && p[1..] == q[1..] + ["%"];
      forall k | 0 <= k < |q| - 1 ensures SameChar(q[1..][k], s[1..][k]) {
        assert q[1..][k] == q[k + 1] && s[1..][k] == s[k + 1];
      }
      OccurrenceMatches(q[1..], s[1..]);
      if q[0] == "%" {
        assert s[0..] == s;
        PercentSkips(p, s);
      } else {
        assert SameChar(q[0], s[0]);
      }
    }
  }

  /** Whatever contains the query is found, wildcards or not. */
  lemma WhatContainsIsFound(query: string, s: string)
    requires Contains(s, query)
    ensures Like("%" + query + "%", s)
  {
    var q, t := Chars(query), Chars(s);
    var i: nat :| OccursAt(q, t, i);
    forall k | 0 <= k < |q| ensures SameChar(q[k], t[i..][k]) {
      assert t[i..][k] == t[i + k];
    }
    OccurrenceMatches(q, t[i..]);
    PatternChars(query);
    Uncons("%", q + ["%"]);
    PercentSkips(Around(q), t);
  }

  // ---------------------------------------------------------------------------------------------
  // Exactly when the search is a substring search

  /** The message that a wildcard query matches without containing: each wildcard replaced by a letter. */
  function Spoil(query: string): string {
    Map(query, (c: char) => if c == '%' || c == '_' then 'x' else c)
  }

  lemma {:induction false} SpoiledRun(s: string)
    ensures ContinuationRun(Spoil(s)) == ContinuationRun(s)
  {
    if s != "" {
      assert Spoil(s)[1..] == Spoil(s[1..]);
      SpoiledRun(s[1..]);
    }
  }

  function SpoiledChar(c: string): string {
    if c == "%" || c == "_" then "x" else c
  }

  lemma {:induction false} SpoiledChars(query: string)
    ensures Chars(Spoil(query)) == Map(Chars(query), SpoiledChar)
    decreases |query|
  {
    if query != "" {
      var n, s := CharLen(query), Spoil(query);
      SpoiledFirst(query);
      hide CharLen, Spoil, SpoiledChar;
      SpoiledChars(query[n..]);
      assert Chars(s) == [s[..n]] + Chars(s[n..]);
      var q, rest := Chars(query), Chars(query[n..]);
      assert q == [query[..n]] + rest;
      assert Map(q, SpoiledChar) == [SpoiledChar(q[0])] + Map(rest, SpoiledChar);
    }
  }

  lemma SpoiledFirst(query: string)
    requires query != ""
    ensures var n, s := CharLen(query), Spoil(query);
      s != "" && CharLen(s) == n && s[..n] == SpoiledChar(query[..n]) && s[n..] == Spoil(query[n..])
  {
    var n, s := CharLen(query), Spoil(query);
    assert s[1..] == Spoil(query[1..]);
    SpoiledRun(query[1..]);
    if n == 1 {
      assert query[..1] == [query[0]] && s[..1] == [s[0]];
    } else {
      assert query[..n] != "%" && query[..n] != "_";
      forall k | 0 <= k < n ensures s[k] == query[k] {}
    }
  }

  lemma {:induction false} SpoiledMatches(q: seq<string>, s: seq<string>)
    requires s == Map(q, SpoiledChar)
    ensures Matches(q + ["%"], s)
  {
    if q == [] {
      assert q + ["%"] == ["%"];
      AnythingMatches(s);
    } else {
      var p := q + ["%"];
      assert p[0] == q[0] && p[1..] == q[1..] + ["%"];
      assert s[1..] == Map(q[1..], SpoiledChar);
      SpoiledMatches(q[1..], s[1..]);
      if q[0] == "%" {
        assert s[0..] == s;
        PercentSkips(p, s);
      }
    }
  }

  /** Wildcards are not escaped: the search is substring search exactly for the queries without them. */
  lemma SearchIsSubstringIffPlain(query: string)
    ensures (forall s :: Like("%" + query + "%", s) <==> Contains(s, query)) <==> IsPlain(query)
  {
    if IsPlain(query) {
      forall s ensures Like("%" + query + "%", s) <==> Contains(s, query) {
        LikeIsSubstring(query, s);
      }
    } else {
      var spoiled := Spoil(query);
      SpoiledIsFound(query);
      assert Like("%" + query + "%", spoiled) && !Contains(spoiled, query);
    }
  }

  lemma SpoiledIsFound(query: string)
    requires !IsPlain(query)
    ensures Like("%" + query + "%", Spoil(query)) && !Contains(Spoil(query), query)
  {
    var q, s := Chars(query), Chars(Spoil(query));
    SpoiledChars(query);
    SpoiledMatches(q, s);
    PatternChars(query);
    AsciiInChars(query, '%');
    AsciiInChars(query, '_');
    hide Matches, Chars, Spoil, SpoiledChar;
    Uncons("%", q + ["%"]);
    WholeSeq(s);
    PercentSkips(Around(q), s);
    forall i: nat ensures !OccursAt(q, s, i) {
      SpoiledIsOther(q, s, i);
    }
  }

  lemma SpoiledIsOther(q: seq<string>, s: seq<string>, i: nat)
    requires s == Map(q, SpoiledChar) && ("%" in q || "_" in q)
    ensures !OccursAt(q, s, i)
  {
    var k :| 0 <= k < |q| && (q[k] == "%" || q[k] == "_");
    assert s[k] == SpoiledChar(q[k]) == "x" && q[k] != "x" && LowerChar(q[k][0]) != LowerChar("x"[0]);
    assert i + |q| <= |s| ==> i == 0 && !SameChar(q[k], s[i + k]);
  }

  /** What up to ASCII case means. */
  lemma SameUpToAsciiCase(a: string, b: string)
    ensures var folded := |a| == |b| == 1 && (
        || (65 <= a[0] as int <= 90 && b[0] as int == a[0] as int + 32)
        || (65 <= b[0] as int <= 90 && a[0] as int == b[0] as int + 32));
      SameChar(a, b) <==> a == b || folded
  {
  }

  // ---------------------------------------------------------------------------------------------
  // Substring of characters and substring of bytes

  ghost predicate BytesAt(query: string, s: string, i: nat) {
    i + |query| <= |s| && forall k :: 0 <= k < |query| ==> LowerChar(query[k]) == LowerChar(s[i + k])
  }

  lemma RuneBytes(s: string)
    requires RuneLen(s) > 0
    ensures !IsContinuation(s[0]) && (RuneLen(s) == 1 <==> s[0] as int < 0xc0)
    ensures forall k :: 1 <= k < RuneLen(s) ==> IsContinuation(s[k])
  {
  }

  /** In well-formed text a character is a rune. */
  lemma CharIsRune(s: string)
    requires ValidUtf8(s) && s != ""
    ensures CharLen(s) == RuneLen(s) && ValidUtf8(s[CharLen(s)..])
    ensures !IsContinuation(s[0])
  {
    var n := RuneLen(s);
    RuneBytes(s);
    if s[n..] != "" {
      RuneBytes(s[n..]);
    }
    hide RuneLen, ContinuationRun;
    if n > 1 {
      RunIs(s[1..], n - 1);
    }
  }

  lemma {:induction false} RunIs(s: string, n: nat)
    requires n <= |s| && (forall k :: 0 <= k < n ==> IsContinuation(s[k])) && (n < |s| ==> !IsContinuation(s[n]))
    ensures ContinuationRun(s) == n
  {
    if n > 0 { RunIs(s[1..], n - 1); }
  }

  lemma {:induction false} PrefixOfBytes(q: string, s: string)
    requires ValidUtf8(q) && ValidUtf8(s)
    ensures OccursAt(Chars(q), Chars(s), 0) <==> BytesAt(q, s, 0)
    decreases |q|
  {
    if q != "" && s != "" {
      CharIsRune(q);
      CharIsRune(s);
      var n := CharLen(q);
      PrefixOfBytes(q[n..], s[CharLen(s)..]);
      FirstOfChars(q, s);
      FirstOfBytes(q, s);
    }
  }

  /** The first characters agree, and then the rest. */
  lemma FirstOfChars(q: string, s: string)
    requires q != "" && s != ""
    ensures var n, m := CharLen(q), CharLen(s);
      OccursAt(Chars(q), Chars(s), 0) <==> SameChar(q[..n], s[..m]) && OccursAt(Chars(q[n..]), Chars(s[m..]), 0)
  {
    hide SameChar, CharLen;
    var n, m := CharLen(q), CharLen(s);
    var q', s' := Chars(q[n..]), Chars(s[m..]);
    assert Chars(q) == [q[..n]] + q' && Chars(s) == [s[..m]] + s';
    hide Chars;
    Uncons(q[..n], q');
    Uncons(s[..m], s');
    if SameChar(q[..n], s[..m]) && OccursAt(q', s', 0) {
      forall k | 0 <= k < |Chars(q)| ensures SameChar(Chars(q)[k], Chars(s)[0 + k]) {
        if k > 0 { assert SameChar(q'[k - 1], s'[0 + (k - 1)]); }
      }
    }
    if OccursAt(Chars(q), Chars(s), 0) {
      forall k | 0 <= k < |q'| ensures SameChar(q'[k], s'[0 + k]) {
        assert SameChar(Chars(q)[k + 1], Chars(s)[0 + (k + 1)]);
      }
    }
  }

  /** The same of bytes: in well-formed text equal first bytes mean runes of equal length. */
  lemma FirstOfBytes(q: string, s: string)
    requires q != "" && s != "" && ValidUtf8(q) && ValidUtf8(s)
    requires CharLen(q) == RuneLen(q) && CharLen(s) == RuneLen(s)
    ensures var n, m := CharLen(q), CharLen(s);
      BytesAt(q, s, 0) <==> SameChar(q[..n], s[..m]) && BytesAt(q[n..], s[m..], 0)
  {
    hide CharLen, ValidUtf8;
    var n, m := CharLen(q), CharLen(s);
    if SameChar(q[..n], s[..m]) && BytesAt(q[n..], s[m..], 0) {
      forall k | 0 <= k < |q| ensures LowerChar(q[k]) == LowerChar(s[0 + k]) {
        if k < n {
          assert q[..n][k] == q[k] && s[..m][k] == s[k];
        } else {
          assert LowerChar(q[n..][k - n]) == LowerChar(s[m..][0 + (k - n)]);
        }
      }
    }
    if BytesAt(q, s, 0) {
      assert LowerChar(q[0]) == LowerChar(s[0 + 0]);
      SameLead(q, s);
      assert n <= |s|;
      forall k | 0 <= k < |q| - n ensures LowerChar(q[n..][k]) == LowerChar(s[m..][0 + k]) {
        assert LowerChar(q[n + k]) == LowerChar(s[0 + (n + k)]);
      }
      SameRune(q, s, n);
    }
  }

  lemma SameLead(q: string, s: string)
    requires q != "" && s != "" && LowerChar(q[0]) == LowerChar(s[0]) && RuneLen(q) > 0 && RuneLen(s) > 0
    ensures RuneLen(q) == RuneLen(s)
  {
  }

  lemma SameRune(q: string, s: string, n: nat)
    requires n == RuneLen(q) == RuneLen(s) > 0 && BytesAt(q, s, 0)
    ensures SameChar(q[..n], s[..n])
  {
    forall k | 0 <= k < n ensures LowerChar(q[k]) == LowerChar(s[k]) {
      assert LowerChar(q[k]) == LowerChar(s[0 + k]);
    }
    if n > 1 {
      forall k | 0 <= k < n ensures q[..n][k] == s[..n][k] {
        assert q[k] as int >= 0x80;
      }
    }
  }

  /** The bytes of a well-formed query stand only where a character starts. */
  lemma {:induction false} BytesStartAtChar(q: string, s: string, i: nat)
    requires ValidUtf8(q) && ValidUtf8(s) && q != "" && BytesAt(q, s, i)
    ensures exists j: nat :: OccursAt(Chars(q), Chars(s), j)
    decreases |s|
  {
    if i == 0 {
      PrefixOfBytes(q, s);
    } else {
      CharIsRune(q);
      CharIsRune(s);
      var n := CharLen(s);
      assert LowerChar(q[0]) == LowerChar(s[i + 0]);
      InsideChar(s, i);
      BytesLater(q, s, n, i);
      assert Chars(s) == [s[..n]] + Chars(s[n..]);
      hide LowerChar, CharLen, SameChar, BytesAt;
      BytesStartAtChar(q, s[n..], i - n);
      var j: nat :| OccursAt(Chars(q), Chars(s[n..]), j);
      OccursLater(Chars(q), s[..n], Chars(s[n..]), j);
    }
  }

  lemma BytesLater(q: string, s: string, n: nat, i: nat)
    requires n <= i && BytesAt(q, s, i)
    ensures n <= |s| && BytesAt(q, s[n..], i - n)
  {
    forall k | 0 <= k < |q| ensures LowerChar(q[k]) == LowerChar(s[n..][i - n + k]) {
      assert LowerChar(q[k]) == LowerChar(s[i + k]);
    }
  }

  lemma InsideChar(s: string, i: nat)
    requires ValidUtf8(s) && 0 < i < |s| && !IsContinuation(s[i]) && CharLen(s) == RuneLen(s)
    ensures i >= CharLen(s)
  {
  }

  lemma OccursLater(q: seq<string>, c: string, s: seq<string>, j: nat)
    ensures OccursAt(q, [c] + s, j + 1) <==> OccursAt(q, s, j)
  {
    hide SameChar;
    if j + |q| <= |s| {
      assert forall k {:trigger q[k]} :: 0 <= k < |q| ==> ([c] + s)[j + 1 + k] == s[j + k];
    }
  }

  lemma {:induction false} CharsStartAtByte(q: string, s: string, j: nat)
    requires ValidUtf8(q) && ValidUtf8(s) && OccursAt(Chars(q), Chars(s), j)
    ensures exists i: nat :: BytesAt(q, s, i)
    decreases |s|
  {
    if j == 0 {
      PrefixOfBytes(q, s);
    } else {
      CharIsRune(s);
      var n := CharLen(s);
      assert Chars(s) == [s[..n]] + Chars(s[n..]);
      OccursLater(Chars(q), s[..n], Chars(s[n..]), j - 1);
      CharsStartAtByte(q, s[n..], j - 1);
      var i: nat :| BytesAt(q, s[n..], i);
      forall k | 0 <= k < |q| ensures LowerChar(q[k]) == LowerChar(s[n + i + k]) {
        assert LowerChar(q[k]) == LowerChar(s[n..][i + k]);
      }
      assert BytesAt(q, s, n + i);
    }
  }

  /** For well-formed text it is all one: a substring of characters is a substring of bytes, up to ASCII case. */
  lemma ContainsIsOfBytes(query: string, s: string)
    requires ValidUtf8(query) && ValidUtf8(s)
    ensures Contains(s, query) <==> exists i: nat :: BytesAt(query, s, i)
  {
    if Contains(s, query) {
      var j: nat :| OccursAt(Chars(query), Chars(s), j);
      CharsStartAtByte(query, s, j);
    }
    if i: nat :| BytesAt(query, s, i) {
      if query == "" {
        assert OccursAt(Chars(query), Chars(s), 0);
      } else {
        BytesStartAtChar(query, s, i);
      }
    }
  }
}
