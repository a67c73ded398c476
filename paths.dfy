/**
 * `PathSplitter`: a restartable cursor over the dotted tail of an identifier
 * (`dict.inner.0`) that yields its pieces one at a time.
 */
module Paths {
  import opened Diag

  /** Index of the first '.' at or after `i`, or `|path|` when there is none. */
  function PieceEnd(path: string, i: nat): (e: nat)
    requires i <= |path|
    ensures i <= e <= |path|
    ensures forall k :: i <= k < e ==> path[k] != '.'
    ensures e < |path| ==> path[e] == '.'
    decreases |path| - i
  {
    if i == |path| || path[i] == '.' then i else PieceEnd(path, i + 1)
  }

  /**
   * What one call of `next` returns from position `pos`, with the position it
   * leaves behind: the longest dot-free piece starting at `pos`, and the cursor
   * moved past the piece and the dot that ends it; None, with the cursor left in
   * place, when that piece is empty (at the end, or at a '.').
   */
  function NextPiece(path: string, pos: nat): (r: (Option<string>, nat))
    requires pos <= |path|
    ensures r.1 <= |path|
    ensures r.0.None? <==> pos == |path| || path[pos] == '.'
    ensures r.0.None? ==> r.1 == pos
    ensures r.0.Some? ==> var piece := r.0.value;
      && |piece| > 0
      && pos + |piece| <= |path|
      && piece == path[pos..pos + |piece|]
      && (forall k :: 0 <= k < |piece| ==> piece[k] != '.')
      && (pos + |piece| == |path| || path[pos + |piece|] == '.')
      && r.1 == if pos + |piece| < |path| then pos + |piece| + 1 else |path|
  {
    var end := PieceEnd(path, pos);
    if end == pos then (None, pos)
    else (Some(path[pos..end]), if end < |path| then end + 1 else end)
  }

  class PathSplitter {
    const path: string
    var pos: nat

    ghost predicate Valid()
      reads this
    {
      pos <= |path|
    }

    /** `PathSplitter::new`: a cursor at the start of `path`. */
    constructor (path: string)
      ensures Valid() && this.path == path && pos == 0
    {
      this.path := path;
      pos := 0;
    }

    /** `PathSplitter::reset`: back to the start of the path. */
    method Reset()
      modifies this
      ensures Valid() && pos == 0
    {
      pos := 0;
    }

    /** `next`: scan forward to the next '.', hand out the piece before it. */
    method Next() returns (piece: Option<string>)
      requires Valid()
      modifies this
      ensures Valid()
      ensures (piece, pos) == NextPiece(path, old(pos))
    {
      var start := pos;
      var end := pos;
      while end < |path|
        invariant start <= end <= |path|
        invariant forall k :: start <= k < end ==> path[k] != '.'
        decreases |path| - end
      {
        if path[end] == '.' {
          break;
        }
        end := end + 1;
      }
      assert end == PieceEnd(path, start);
      pos := end;
      if start == end {
        piece := None;
      } else {
        if pos < |path| {
          pos := pos + 1;
        }
        piece := Some(path[start..end]);
      }
    }
  }

  /** Once `next` has returned None it keeps returning None without moving. */
  lemma {:induction false} NoneIsFinal(path: string, pos: nat)
    requires pos <= |path|
    requires NextPiece(path, pos).0.None?
    ensures NextPiece(path, NextPiece(path, pos).1) == (None, pos)
  {
  }

  /** The pieces the cursor yields from `pos` before its first None. */
  function Pieces(path: string, pos: nat): seq<string>
    requires pos <= |path|
    decreases |path| - pos
  {
    match NextPiece(path, pos)
    case (None, _) => []
    case (Some(piece), next) => [piece] + Pieces(path, next)
  }

  /** `s` cut at every '.', empty pieces included: "a..b" gives ["a", "", "b"]. */
  function SplitDots(s: string): (r: seq<string>)
    ensures |r| >= 1
    decreases |s|
  {
    var e := PieceEnd(s, 0);
    if e == |s| then [s] else [s[..e]] + SplitDots(s[e + 1..])
  }

  /** The pieces before the first empty one. */
  function TakeNonEmpty(ps: seq<string>): seq<string>
  {
    if ps == [] || ps[0] == "" then [] else [ps[0]] + TakeNonEmpty(ps[1..])
  }

  /** The path segments a dotted path denotes: its dot-separated pieces up to the first empty one. */
  function Segments(path: string): seq<string>
  {
    TakeNonEmpty(SplitDots(path))
  }

  lemma {:induction false} PieceEndShift(path: string, pos: nat)
    requires pos <= |path|
    ensures PieceEnd(path[pos..], 0) == PieceEnd(path, pos) - pos
  {
    assert forall k :: 0 <= k < |path| - pos ==> path[pos..][k] == path[pos + k];
  }

  lemma {:induction false} SegmentsOfStop(rest: string)
    requires PieceEnd(rest, 0) == 0
    ensures Segments(rest) == []
  {
    assert SplitDots(rest)[0] == rest[..0] == "";
  }

  lemma {:induction false} SegmentsOfPiece(rest: string)
    requires rest != "" && PieceEnd(rest, 0) == |rest|
    ensures Segments(rest) == [rest]
  {
    assert rest[..|rest|] == rest;
    assert SplitDots(rest) == [rest];
    assert TakeNonEmpty([rest]) == [rest] + TakeNonEmpty([]);
  }

  lemma {:induction false} SegmentsOfDotted(rest: string, e: nat)
    requires 0 < e < |rest| && PieceEnd(rest, 0) == e
    ensures Segments(rest) == [rest[..e]] + Segments(rest[e + 1..])
  {
    assert SplitDots(rest) == [rest[..e]] + SplitDots(rest[e + 1..]);
  }

  /** A piece that runs to the end of the path is the last one. */
  lemma {:induction false} PiecesAtEnd(path: string, pos: nat)
    requires pos < |path| && PieceEnd(path, pos) == |path|
    ensures Pieces(path, pos) == [path[pos..]]
  {
    assert path[pos..|path|] == path[pos..];
    assert NextPiece(path, pos) == (Some(path[pos..]), |path|);
    assert Pieces(path, |path|) == [];
  }

  /** A piece ended by a dot is followed by the pieces after the dot. */
  lemma {:induction false} PiecesAtDot(path: string, pos: nat, e: nat)
    requires pos < e < |path| && PieceEnd(path, pos) == e
    ensures Pieces(path, pos) == [path[pos..e]] + Pieces(path, e + 1)
  {
    assert NextPiece(path, pos) == (Some(path[pos..e]), e + 1);
  }

  /** The cursor, started anywhere, yields exactly the segments of the rest of the path. */
  lemma {:induction false} PiecesAreSegments(path: string, pos: nat)
    requires pos <= |path|
    ensures Pieces(path, pos) == Segments(path[pos..])
    decreases |path| - pos
  {
    var rest := path[pos..];
    var e := PieceEnd(path, pos);
    PieceEndShift(path, pos);
    if e == pos {
      SegmentsOfStop(rest);
    } else if e == |path| {
      SegmentsOfPiece(rest);
      PiecesAtEnd(path, pos);
    } else {
      SegmentsOfDotted(rest, e - pos);
      assert rest[..e - pos] == path[pos..e];
      assert rest[e - pos + 1..] == path[e + 1..];
      PiecesAtDot(path, pos, e);
      PiecesAreSegments(path, e + 1);
    }
  }
}
