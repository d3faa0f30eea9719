/** Cutting a stream into lines: the pieces it arrives in do not matter. */
module Framing {
  /** Splits at every separator; there is always one part more than separators. */
  function Split<T(==)>(s: seq<T>, sep: T): (parts: seq<seq<T>>)
    ensures parts != []
  {
    if s == [] then [[]]
    else
      var rest := Split(s[1..], sep);
      if s[0] == sep then [[]] + rest else [[s[0]] + rest[0]] + rest[1..]
  }

  function Join<T>(parts: seq<seq<T>>, sep: T): seq<T>
    requires parts != []
  {
    if |parts| == 1 then parts[0] else parts[0] + [sep] + Join(parts[1..], sep)
  }

  predicate Clean<T(==)>(parts: seq<seq<T>>, sep: T) {
    forall p <- parts :: sep !in p
  }

  lemma {:induction false} JoinOfSplit<T>(s: seq<T>, sep: T)
    ensures Join(Split(s, sep), sep) == s && Clean(Split(s, sep), sep)
  {
    if s != [] {
      JoinOfSplit(s[1..], sep);
      var rest := Split(s[1..], sep);
      var parts := Split(s, sep);
      assert s == [s[0]] + s[1..];
      if s[0] == sep {
        assert parts[1..] == rest;
        assert [] + [sep] + Join(rest, sep) == [sep] + Join(rest, sep);
      } else {
        assert parts[1..] == rest[1..];
        assert rest[0] in rest && forall p <- rest[1..] :: p in rest;
      }
    }
  }

  /** Nothing else joins to the same stream. */
  lemma {:induction false} SplitOfJoin<T>(parts: seq<seq<T>>, sep: T)
    requires parts != [] && Clean(parts, sep)
    ensures Split(Join(parts, sep), sep) == parts
    decreases |parts|, |parts[0]|
  {
    var s := Join(parts, sep);
    assert parts[0] in parts;
    if parts[0] != [] {
      var shorter := [parts[0][1..]] + parts[1..];
      assert Join(shorter, sep) == s[1..] by {
        assert shorter[1..] == parts[1..];
      }
      assert parts[0][0] in parts[0];
      SplitOfJoin(shorter, sep);
      assert [s[0]] + shorter[0] == parts[0];
    } else if |parts| > 1 {
      assert s == [sep] + Join(parts[1..], sep);
      SplitOfJoin(parts[1..], sep);
      assert [[]] + parts[1..] == parts;
    }
  }

  /** Continues the last part with `b`. */
  function Continued<T(==)>(parts: seq<seq<T>>, b: seq<T>, sep: T): seq<seq<T>>
    requires parts != []
  {
    parts[..|parts| - 1] + Split(parts[|parts| - 1] + b, sep)
  }

  /** Splitting more input only continues the last part. */
  lemma {:induction false} SplitOfConcatenation<T>(a: seq<T>, b: seq<T>, sep: T)
    ensures Split(a + b, sep) == Continued(Split(a, sep), b, sep)
  {
    if a == [] {
      assert a + b == b && [] + b == b;
      assert [] + Split(b, sep) == Split(b, sep);
    } else {
      assert (a + b)[1..] == a[1..] + b;
      SplitOfConcatenation(a[1..], b, sep);
      if a[0] == sep {
        ContinuedAfterSeparator(Split(a[1..], sep), b, sep);
      } else {
        ContinuedAfterItem(a[0], Split(a[1..], sep), b, sep);
      }
    }
  }

  lemma ContinuedAfterSeparator<T>(rest: seq<seq<T>>, b: seq<T>, sep: T)
    requires rest != []
    ensures Continued([[]] + rest, b, sep) == [[]] + Continued(rest, b, sep)
  {
    var parts := [[]] + rest;
    assert parts[..|parts| - 1] == [[]] + rest[..|rest| - 1];
  }

  lemma ContinuedAfterItem<T>(x: T, rest: seq<seq<T>>, b: seq<T>, sep: T)
    requires rest != [] && x != sep
    ensures var more := Continued(rest, b, sep);
            && more != []
            && Continued([[x] + rest[0]] + rest[1..], b, sep) == [[x] + more[0]] + more[1..]
  {
    var parts := [[x] + rest[0]] + rest[1..];
    if |rest| == 1 {
      assert parts[0] + b == [x] + (rest[0] + b);
      assert (parts[0] + b)[1..] == rest[0] + b;
    } else {
      assert parts[..|parts| - 1] == [[x] + rest[0]] + rest[1..|rest| - 1];
      assert parts[|parts| - 1] == rest[|rest| - 1];
    }
  }

  lemma {:induction false} SplitLength<T>(s: seq<T>, sep: T)
    ensures |Split(s, sep)| <= |s| + 1
  {
    if s != [] {
      SplitLength(s[1..], sep);
    }
  }

  /** The complete lines of a stream: every part but the last. */
  function Lines<T(==)>(s: seq<T>, sep: T): seq<seq<T>> {
    var parts := Split(s, sep);
    parts[..|parts| - 1]
  }

  function Unfinished<T(==)>(s: seq<T>, sep: T): seq<T> {
    var parts := Split(s, sep);
    parts[|parts| - 1]
  }

  /** One more piece: what a framer that keeps only the unfinished line has to do. */
  lemma NextPiece<T>(received: seq<T>, piece: seq<T>, sep: T)
    ensures Lines(received + piece, sep) == Lines(received, sep) + Lines(Unfinished(received, sep) + piece, sep)
    ensures Unfinished(received + piece, sep) == Unfinished(Unfinished(received, sep) + piece, sep)
  {
    SplitOfConcatenation(received, piece, sep);
  }

  function Flat<T>(pieces: seq<seq<T>>): seq<T> {
    if pieces == [] then [] else Flat(pieces[..|pieces| - 1]) + pieces[|pieces| - 1]
  }

  /** However a stream is cut into pieces, a framer's lines and its rest are the same at the end. */
  lemma {:induction false} LinesOfPieces<T>(pieces: seq<seq<T>>, sep: T)
    ensures FramedLines(pieces, sep) == Lines(Flat(pieces), sep)
    ensures FramedRest(pieces, sep) == Unfinished(Flat(pieces), sep)
  {
    if pieces != [] {
      var last := |pieces| - 1;
      LinesOfPieces(pieces[..last], sep);
      NextPiece(Flat(pieces[..last]), pieces[last], sep);
    }
  }

  /** A framer that reads piece by piece: the lines delivered and the text kept. */
  function FramedRest<T(==)>(pieces: seq<seq<T>>, sep: T): seq<T> {
    if pieces == [] then []
    else Unfinished(FramedRest(pieces[..|pieces| - 1], sep) + pieces[|pieces| - 1], sep)
  }

  function FramedLines<T(==)>(pieces: seq<seq<T>>, sep: T): seq<seq<T>> {
    if pieces == [] then []
    else
      var before := pieces[..|pieces| - 1];
      FramedLines(before, sep) + Lines(FramedRest(before, sep) + pieces[|pieces| - 1], sep)
  }
}
