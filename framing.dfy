/** The newline framer of the session loop: received bytes are appended to a
    buffer, every complete line is split off at `\n`, and the bytes after the
    last newline stay in the buffer for the next chunk. `Lines` and `Rest`
    say what the framer yields for a whole buffer; the lemmas show that
    nothing is lost or reordered and that chunk boundaries do not matter. */
module Framing {

  newtype byte = x: int | 0 <= x < 256

  type Bytes = seq<byte>

  const NL: byte := 10

  /** No byte of `s` is a newline. */
  predicate NoNewline(s: Bytes)
  {
    forall k :: 0 <= k < |s| ==> s[k] != NL
  }

  /** Position of the first newline, as `buffer.split(b"\n", 1)` finds it;
      `|s|` when there is none. */
  function NewlineAt(s: Bytes): (i: nat)
    ensures i <= |s|
    ensures i < |s| ==> s[i] == NL
    ensures NoNewline(s[..i])
  {
    if s == [] || s[0] == NL then 0
    else
      var j := NewlineAt(s[1..]);
      assert forall k :: 0 <= k < j ==> s[..j + 1][k + 1] == s[1..][..j][k];
      j + 1
  }

  /** The complete lines in `s`, without their newlines, in order. */
  function Lines(s: Bytes): (ls: seq<Bytes>)
    decreases |s|
  {
    var i := NewlineAt(s);
    if i == |s| then [] else [s[..i]] + Lines(s[i + 1..])
  }

  /** What is left in the buffer once every complete line is split off. */
  function Rest(s: Bytes): (r: Bytes)
    ensures NoNewline(r)
    decreases |s|
  {
    var i := NewlineAt(s);
    if i == |s| then s else Rest(s[i + 1..])
  }

  /** Lines written back out, each followed by its newline. */
  function Join(ls: seq<Bytes>): Bytes
  {
    if ls == [] then [] else ls[0] + [NL] + Join(ls[1..])
  }

  /** `line.strip()` is empty: every byte is ASCII whitespace. */
  predicate IsBlank(line: Bytes)
  {
    forall k :: 0 <= k < |line| ==> line[k] in {9, 10, 11, 12, 13, 32}
  }

  /** `b"\n" in buffer` holds exactly when the search finds a newline. */
  lemma HasNewline(s: Bytes)
    ensures NL in s <==> NewlineAt(s) < |s|
  {
    var i := NewlineAt(s);
    if i < |s| {
      assert s[i] in s;
    } else {
      assert s[..i] == s;
    }
  }

  /** No line the framer yields holds a newline. */
  lemma {:induction false} LinesHaveNoNewline(s: Bytes)
    ensures forall k :: 0 <= k < |Lines(s)| ==> NoNewline(Lines(s)[k])
    decreases |s|
  {
    var i := NewlineAt(s);
    if i < |s| {
      LinesHaveNoNewline(s[i + 1..]);
      var ls := Lines(s);
      assert ls == [s[..i]] + Lines(s[i + 1..]);
      assert forall k :: 1 <= k < |ls| ==> ls[k] == Lines(s[i + 1..])[k - 1];
    }
  }

  lemma {:induction false} JoinAppend(a: seq<Bytes>, b: seq<Bytes>)
    ensures Join(a + b) == Join(a) + Join(b)
  {
    if a != [] {
      assert (a + b)[1..] == a[1..] + b;
      JoinAppend(a[1..], b);
    } else {
      assert a + b == b;
    }
  }

  /** The first newline is the only newline with none before it. */
  lemma {:induction false} NewlineAtIs(s: Bytes, i: nat)
    requires i < |s| && s[i] == NL && NoNewline(s[..i])
    ensures NewlineAt(s) == i
  {
    if i > 0 {
      assert s[0] == s[..i][0];
      assert s[1..][..i - 1] == s[..i][1..];
      NewlineAtIs(s[1..], i - 1);
    }
  }

  /** One step of the framer: the first line is split off at the first newline. */
  lemma SplitFirst(s: Bytes)
    requires NewlineAt(s) < |s|
    ensures var i := NewlineAt(s);
            && Lines(s) == [s[..i]] + Lines(s[i + 1..])
            && Rest(s) == Rest(s[i + 1..])
            && s == s[..i] + [NL] + s[i + 1..]
  {
    SplitAround(s, NewlineAt(s));
  }

  lemma SplitAround(s: Bytes, i: nat)
    requires i < |s|
    ensures s == s[..i] + [s[i]] + s[i + 1..]
  {
    assert s[..i] + [s[i]] == s[..i + 1];
  }

  /** Nothing is lost or reordered: the lines, each followed by a newline,
      and then the remaining buffer give back exactly the bytes received. */
  lemma {:induction false} JoinLinesRest(s: Bytes)
    ensures Join(Lines(s)) + Rest(s) == s
    decreases |s|
  {
    var i := NewlineAt(s);
    if i < |s| {
      var tail := s[i + 1..];
      var more := Lines(tail);
      assert Join(Lines(s)) == s[..i] + [NL] + Join(more) by {
        SplitFirst(s);
        var ls := Lines(s);
        assert ls[0] == s[..i] && ls[1..] == more;
      }
      assert Rest(s) == Rest(tail) && s == s[..i] + [NL] + tail by {
        SplitFirst(s);
      }
      assert Join(more) + Rest(tail) == tail by {
        JoinLinesRest(tail);
      }
      calc {
        Join(Lines(s)) + Rest(s);
        (s[..i] + [NL] + Join(more)) + Rest(tail);
        s[..i] + [NL] + (Join(more) + Rest(tail));
        s;
      }
    } else {
      assert Lines(s) == [] && Rest(s) == s;
      assert Join([]) + s == s;
    }
  }

  /** Lines and rest are the only such split: any newline-free lines and
      newline-free tail that join up to `s` are the ones the framer yields. */
  lemma {:induction false} SplitIsUnique(ls: seq<Bytes>, r: Bytes)
    requires forall k :: 0 <= k < |ls| ==> NoNewline(ls[k])
    requires NoNewline(r)
    ensures Lines(Join(ls) + r) == ls && Rest(Join(ls) + r) == r
  {
    if ls != [] {
      var s := Join(ls) + r;
      var l := ls[0];
      var tail := Join(ls[1..]) + r;
      assert s == l + [NL] + tail;
      assert s[..|l|] == l;
      assert NewlineAt(s) == |l| by {
        NewlineAtIs(s, |l|);
      }
      assert s[|l| + 1..] == tail;
      assert Lines(tail) == ls[1..] && Rest(tail) == r by {
        SplitIsUnique(ls[1..], r);
      }
      assert Lines(s) == [l] + ls[1..];
      assert ls == [l] + ls[1..];
    } else {
      assert Join(ls) + r == r;
    }
  }

  /** Regrouping of the concatenations in `LinesAppend`, kept apart so that
      the solver does not search for it inside the larger proof. */
  lemma Regroup(p: Bytes, c: Bytes, jp: Bytes, rp: Bytes, jq: Bytes, rq: Bytes)
    requires p == jp + rp && rp + c == jq + rq
    ensures p + c == (jp + jq) + rq
  {
    calc {
      p + c;
      (jp + rp) + c;
      jp + (rp + c);
      jp + (jq + rq);
      (jp + jq) + rq;
    }
  }

  /** Splitting off the lines of `p` and then feeding the chunk `c` onto what
      remains yields the same lines and remainder as receiving `p + c` at once. */
  lemma {:induction false} LinesAppend(p: Bytes, c: Bytes)
    ensures Lines(p + c) == Lines(p) + Lines(Rest(p) + c)
    ensures Rest(p + c) == Rest(Rest(p) + c)
  {
    var q := Rest(p) + c;
    var lp, lq := Lines(p), Lines(q);
    assert p + c == Join(lp + lq) + Rest(q) by {
      JoinLinesRest(p);
      JoinLinesRest(q);
      Regroup(p, c, Join(lp), Rest(p), Join(lq), Rest(q));
      JoinAppend(lp, lq);
    }
    assert forall k :: 0 <= k < |lp + lq| ==> NoNewline((lp + lq)[k]) by {
      LinesHaveNoNewline(p);
      LinesHaveNoNewline(q);
      assert forall k :: 0 <= k < |lp + lq| ==> (lp + lq)[k] == if k < |lp| then lp[k] else lq[k - |lp|];
    }
    SplitIsUnique(lp + lq, Rest(q));
  }

  /** A buffer holding no newline yields no line and stays as it is. */
  lemma NoNewlineNoLines(s: Bytes)
    requires NoNewline(s)
    ensures Lines(s) == [] && Rest(s) == s
  {
  }
}
