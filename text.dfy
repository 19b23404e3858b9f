/**
 * String operations the route handlers rely on: `Array.prototype.join`,
 * prefix matching, splitting at a separator character, substring search.
 */
module Text {
  import opened Wrappers

  /** `parts.join(sep)`: the parts with `sep` between neighbours, "" for no parts. */
  function Join(sep: string, parts: seq<string>): string
    decreases |parts|
  {
    if |parts| == 0 then ""
    else if |parts| == 1 then parts[0]
    else parts[0] + sep + Join(sep, parts[1..])
  }

  predicate StartsWith(s: string, prefix: string) {
    |prefix| <= |s| && s[..|prefix|] == prefix
  }

  /** `part` occurs in `s` starting at index `i`. */
  predicate OccursAt(s: string, part: string, i: int) {
    0 <= i <= |s| - |part| && s[i..i + |part|] == part
  }

  /** `part` occurs somewhere in `s`. */
  ghost predicate Contains(s: string, part: string) {
    exists i :: OccursAt(s, part, i)
  }

  /** Strips the literal `lit` off the front of `s`, if it is there. */
  function Consume(s: string, lit: string): (r: Option<string>)
    ensures r.Some? <==> StartsWith(s, lit)
    ensures r.Some? ==> lit + r.value == s
  {
    if StartsWith(s, lit) then
      assert s == s[..|lit|] + s[|lit|..];
      Some(s[|lit|..])
    else None
  }

  lemma ConsumePrefix(lit: string, t: string)
    ensures Consume(lit + t, lit) == Some(t)
  {
    assert (lit + t)[..|lit|] == lit;
    assert (lit + t)[|lit|..] == t;
  }

  /**
   * Splits `s` before the first occurrence of `stop`: the part before it, and
   * the rest, which is empty or starts with `stop`.
   */
  function TakeUntil(s: string, stop: char): (r: (string, string))
    ensures r.0 + r.1 == s
    ensures stop !in r.0
    ensures r.1 == [] || r.1[0] == stop
    decreases |s|
  {
    if |s| == 0 || s[0] == stop then ([], s)
    else
      var (head, rest) := TakeUntil(s[1..], stop);
      ([s[0]] + head, rest)
  }

  lemma {:induction false} TakeUntilConcat(f: string, t: string, stop: char)
    requires stop !in f
    requires t == [] || t[0] == stop
    ensures TakeUntil(f + t, stop) == (f, t)
  {
    if f == [] {
      assert f + t == t;
    } else {
      assert (f + t)[1..] == f[1..] + t;
      TakeUntilConcat(f[1..], t, stop);
      assert [f[0]] + f[1..] == f;
    }
  }

  /** Joining a concatenation puts one separator between the two joined halves. */
  lemma {:induction false} JoinAppend(sep: string, a: seq<string>, b: seq<string>)
    requires |a| > 0 && |b| > 0
    ensures Join(sep, a + b) == Join(sep, a) + sep + Join(sep, b)
    decreases |a|
  {
    assert (a + b)[0] == a[0];
    assert (a + b)[1..] == a[1..] + b;
    if |a| > 1 {
      JoinAppend(sep, a[1..], b);
      assert Join(sep, a + b) == a[0] + sep + (Join(sep, a[1..]) + sep + Join(sep, b));
    }
  }

  /** `s.split(sep)` for a one-character separator: never empty, parts free of `sep`. */
  function Split(s: string, sep: char): (parts: seq<string>)
    ensures |parts| > 0
    ensures forall i :: 0 <= i < |parts| ==> sep !in parts[i]
    ensures Join([sep], parts) == s
    decreases |s|
  {
    var (head, rest) := TakeUntil(s, sep);
    if rest == [] then [head]
    else
      var tail := Split(rest[1..], sep);
      assert ([head] + tail)[1..] == tail;
      assert rest == [sep] + rest[1..];
      [head] + tail
  }

  /** Splitting undoes joining, for parts that do not contain the separator. */
  lemma {:induction false} SplitJoin(parts: seq<string>, sep: char)
    requires |parts| > 0
    requires forall i :: 0 <= i < |parts| ==> sep !in parts[i]
    ensures Split(Join([sep], parts), sep) == parts
  {
    if |parts| == 1 {
      TakeUntilConcat(parts[0], [], sep);
      assert parts[0] + [] == parts[0];
    } else {
      var rest := Join([sep], parts[1..]);
      assert Join([sep], parts) == parts[0] + ([sep] + rest);
      TakeUntilConcat(parts[0], [sep] + rest, sep);
      assert ([sep] + rest)[1..] == rest;
      SplitJoin(parts[1..], sep);
      assert [parts[0]] + parts[1..] == parts;
    }
  }

  /**
   * A template literal: `chunks[0]${values[0]}chunks[1]...${values[n-1]}chunks[n]`,
   * the text between the holes interleaved with the interpolated values.
   */
  function Fill(chunks: seq<string>, values: seq<string>): string
    requires |chunks| == |values| + 1
    decreases |values|
  {
    if |values| == 0 then chunks[0]
    else chunks[0] + values[0] + Fill(chunks[1..], values[1..])
  }

  /** Skips the literal `lit`, then reads a value up to the next '<'. */
  function Field(s: string, lit: string): (r: Option<(string, string)>)
    ensures r.Some? ==> |r.value.1| <= |s| - |lit|
  {
    var rest :- Consume(s, lit);
    Some(TakeUntil(rest, '<'))
  }

  lemma FieldConcat(lit: string, f: string, t: string)
    requires '<' !in f
    requires t == [] || t[0] == '<'
    ensures Field(lit + f + t, lit) == Some((f, t))
  {
    assert lit + f + t == lit + (f + t);
    ConsumePrefix(lit, f + t);
    TakeUntilConcat(f, t, '<');
  }

  /**
   * Reads the values of a template whose holes are each followed by a
   * chunk starting with '<': the values found and the text after the last chunk.
   */
  function ReadFill(s: string, chunks: seq<string>): (r: Option<(seq<string>, string)>)
    requires |chunks| >= 1
    ensures r.Some? ==> |r.value.0| == |chunks| - 1 && |r.value.1| <= |s| - |chunks[0]|
    decreases |chunks|
  {
    if |chunks| == 1 then
      var rest :- Consume(s, chunks[0]);
      Some(([], rest))
    else
      var f :- Field(s, chunks[0]);
      var more :- ReadFill(f.1, chunks[1..]);
      Some(([f.0] + more.0, more.1))
  }

  /** Chunks after the first start with '<', so a value free of '<' ends where its chunk begins. */
  predicate Delimited(chunks: seq<string>) {
    forall i :: 1 <= i < |chunks| ==> |chunks[i]| > 0 && chunks[i][0] == '<'
  }

  /** Reading a filled template gives back the values that filled it. */
  lemma {:induction false} ReadFillFill(chunks: seq<string>, values: seq<string>, t: string)
    requires |chunks| == |values| + 1
    requires Delimited(chunks)
    requires forall i :: 0 <= i < |values| ==> '<' !in values[i]
    ensures ReadFill(Fill(chunks, values) + t, chunks) == Some((values, t))
    decreases |values|
  {
    if |values| == 0 {
      ConsumePrefix(chunks[0], t);
    } else {
      var after := Fill(chunks[1..], values[1..]) + t;
      assert Fill(chunks, values) + t == chunks[0] + values[0] + after;
      assert after[0] == '<' by {
        assert chunks[1..][0] == chunks[1];
        FillStartsWith(chunks[1..], values[1..]);
      }
      FieldConcat(chunks[0], values[0], after);
      ReadFillFill(chunks[1..], values[1..], t);
      assert [values[0]] + values[1..] == values;
    }
  }

  /** A text made of a head, a middle and a tail starts with the head and ends with the tail. */
  lemma Framed(head: string, middle: string, tail: string)
    ensures StartsWith(head + middle + tail, head)
    ensures (head + middle + tail)[|head + middle|..] == tail
  {
    assert (head + middle + tail)[..|head|] == head;
  }

  /** Regrouping of a head, three line-separated parts and a tail, each on its own line. */
  lemma FrameLines(h: string, a: string, b: string, c: string, z: string)
    ensures h + "\n" + a + "\n" + b + "\n" + c + "\n" + z == (h + "\n") + (a + "\n" + b + "\n" + c) + ("\n" + z)
  {
  }

  /** The same text, grouped around its middle part instead. */
  lemma FrameMiddle(h: string, a: string, b: string, c: string, z: string)
    ensures h + "\n" + a + "\n" + b + "\n" + c + "\n" + z == (h + "\n" + a + "\n") + b + ("\n" + c + "\n" + z)
  {
  }

  lemma FillStartsWith(chunks: seq<string>, values: seq<string>)
    requires |chunks| == |values| + 1
    ensures StartsWith(Fill(chunks, values), chunks[0])
  {
    if |values| > 0 {
      var s := Fill(chunks, values);
      assert s == chunks[0] + (values[0] + Fill(chunks[1..], values[1..]));
    }
  }

  lemma Assoc<T>(a: seq<T>, b: seq<T>, c: seq<T>)
    ensures a + b + c == a + (b + c)
  {
  }

  lemma EmptyAppend<T>(xs: seq<T>, tail: seq<T>)
    requires |xs| == 0
    ensures xs + tail == tail
  {
  }

  lemma ConsAppend<T>(xs: seq<T>, tail: seq<T>)
    requires |xs| > 0
    ensures [xs[0]] + (xs[1..] + tail) == xs + tail
  {
  }

  /** Regrouping of `a + sep + b + sep + t`, stated once so callers need not redo it. */
  lemma Regroup(a: string, sep: string, b: string, t: string)
    ensures a + sep + b + sep + t == a + (sep + (b + sep + t))
  {
  }

  /** Regrouping of four line-separated parts to the right. */
  lemma RegroupLines4(a: string, b: string, c: string, d: string)
    ensures a + "\n" + b + "\n" + c + "\n" + d == a + "\n" + (b + "\n" + (c + "\n" + d))
  {
  }

  lemma Append2<T>(xs: seq<T>, ys: seq<T>)
    ensures xs + (ys + []) == xs + ys
  {
  }

  /** Regrouping of five line-separated parts to the right. */
  lemma RegroupLines5(a: string, b: string, c: string, d: string, e: string)
    ensures a + "\n" + b + "\n" + c + "\n" + d + "\n" + e
         == a + "\n" + (b + "\n" + (c + "\n" + (d + "\n" + e)))
  {
  }

  lemma Append3<T>(xs: seq<T>, ys: seq<T>, zs: seq<T>)
    ensures xs + (ys + (zs + [])) == xs + ys + zs
  {
  }

  lemma ContainsMiddle(a: string, b: string, c: string)
    ensures Contains(a + b + c, b)
  {
    var s := a + b + c;
    assert s[|a|..|a| + |b|] == b;
    assert OccursAt(s, b, |a|);
  }

  lemma ContainsLeft(x: string, y: string, part: string)
    requires Contains(x, part)
    ensures Contains(x + y, part)
  {
    var i :| OccursAt(x, part, i);
    assert (x + y)[i..i + |part|] == x[i..i + |part|];
    assert OccursAt(x + y, part, i);
  }

  lemma ContainsRight(x: string, y: string, part: string)
    requires Contains(y, part)
    ensures Contains(x + y, part)
  {
    var i :| OccursAt(y, part, i);
    assert (x + y)[|x| + i..|x| + i + |part|] == y[i..i + |part|];
    assert OccursAt(x + y, part, |x| + i);
  }

  /**
   * A part made of the end `k` of one piece, a value `v`, and the start `e`
   * of the next piece occurs in their concatenation.
   */
  lemma ContainsSpan(h: string, k: string, v: string, e: string, t: string)
    ensures Contains(h + k + v + (e + t), k + v + e)
  {
    assert h + k + v + (e + t) == h + (k + v + e) + t;
    ContainsMiddle(h, k + v + e, t);
  }
}
