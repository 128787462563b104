/** Strings joined with a separator, and when a joined key stands for two different lists of parts. */
module JoinedKeys {
  /** `strings.Join` with a one-character separator. */
  function Join(parts: seq<string>, separator: char): string {
    if parts == [] then ""
    else if |parts| == 1 then parts[0]
    else parts[0] + [separator] + Join(parts[1..], separator)
  }

  /** Splitting at the first separator is unambiguous. */
  lemma {:induction false} FirstSplit(a: string, b: string, x: string, y: string, separator: char)
    requires a + [separator] + b == x + [separator] + y
    requires separator !in a && separator !in x
    ensures a == x && b == y
    decreases |a|
  {
    var left, right := a + [separator] + b, x + [separator] + y;
    assert left[|a|] == separator && forall k | 0 <= k < |x| :: right[k] == x[k];
    assert right[|x|] == separator && forall k | 0 <= k < |a| :: left[k] == a[k];
    assert |a| == |x|;
    assert left[..|a|] == a && right[..|x|] == x;
    assert left[|a| + 1..] == b && right[|x| + 1..] == y;
  }

  /** Joining keeps equally long lists apart when no part but the last holds the separator. */
  lemma {:induction false} JoinInjective(p: seq<string>, q: seq<string>, separator: char)
    requires |p| == |q| && Join(p, separator) == Join(q, separator)
    requires forall i | 0 <= i < |p| - 1 :: separator !in p[i] && separator !in q[i]
    ensures p == q
    decreases |p|
  {
    if |p| > 1 {
      FirstSplit(p[0], Join(p[1..], separator), q[0], Join(q[1..], separator), separator);
      JoinInjective(p[1..], q[1..], separator);
      assert p == [p[0]] + p[1..] && q == [q[0]] + q[1..];
    }
  }

  /** Every part is non-empty. */
  predicate NonEmptyParts(parts: seq<string>) {
    forall i | 0 <= i < |parts| :: parts[i] != ""
  }

  /** A separator inside some part at which a neighbour's boundary can be put
      instead, leaving no part empty. */
  predicate Shiftable(parts: seq<string>, separator: char) {
    exists i | 0 <= i < |parts| ::
      && parts[i] != ""
      && ((i < |parts| - 1 && separator in parts[i][1..])
          || (i > 0 && separator in parts[i][..|parts[i]| - 1]))
  }

  /** Fitting one chunk more than there are parts puts a separator inside a part. */
  lemma {:induction false} OneChunkMore(a: seq<string>, z: string, b: seq<string>, separator: char)
    returns (j: nat)
    requires |a| == |b| > 0 && NonEmptyParts(a) && NonEmptyParts(b)
    requires Join(a, separator) == z + [separator] + Join(b, separator)
    ensures j < |a| && separator in a[j][..|a[j]| - 1]
    decreases |a|
  {
    var whole := Join(a, separator);
    assert whole[|z|] == separator;
    if |a| == 1 {
      assert a[0][..|a[0]| - 1][|z|] == separator;
      return 0;
    }
    var rest, others := Join(a[1..], separator), Join(b[1..], separator);
    assert whole == a[0] + [separator] + rest;
    assert whole[|z| + 1..] == b[0] + [separator] + others;
    if |z| < |a[0]| - 1 {
      assert a[0][..|a[0]| - 1][|z|] == separator;
      return 0;
    }
    var chunk;
    if |z| == |a[0]| - 1 {
      // The first part ends in the separator; the chunk after it lost its first character.
      assert whole[|z| + 1] == separator == b[0][0];
      chunk := b[0][1..];
      assert rest == whole[|z| + 2..];
    } else {
      // The first part lies within the first chunk.
      chunk := if |z| == |a[0]| then b[0] else z[|a[0]| + 1..] + [separator] + b[0];
      assert rest == whole[|a[0]| + 1..];
    }
    assert rest == chunk + [separator] + others;
    var k := OneChunkMore(a[1..], chunk, b[1..], separator);
    j := k + 1;
  }

  /** A different list of as many non-empty parts joins to the same string only
      if some boundary can be shifted. */
  lemma {:induction false} TwinShifts(p: seq<string>, q: seq<string>, separator: char)
    requires |p| == |q| > 0 && p != q && NonEmptyParts(p) && NonEmptyParts(q)
    requires Join(p, separator) == Join(q, separator)
    ensures Shiftable(p, separator)
    decreases |p|
  {
    if |p| > 1 {
      var whole, restP, restQ := Join(p, separator), Join(p[1..], separator), Join(q[1..], separator);
      assert whole == p[0] + [separator] + restP == q[0] + [separator] + restQ;
      if |q[0]| < |p[0]| {
        assert whole[|q[0]|] == separator;
        assert p[0][1..][|q[0]| - 1] == separator;
      } else if |q[0]| == |p[0]| {
        assert p[0] == whole[..|p[0]|] == q[0];
        assert restP == whole[|p[0]| + 1..] == restQ;
        assert p == [p[0]] + p[1..] && q == [q[0]] + q[1..];
        TwinShifts(p[1..], q[1..], separator);
        var i :| 0 <= i < |p| - 1 && p[1..][i] != "" &&
                 ((i < |p| - 2 && separator in p[1..][i][1..]) || (i > 0 && separator in p[1..][i][..|p[1..][i]| - 1]));
        assert p[i + 1] == p[1..][i];
      } else {
        var z := q[0][|p[0]| + 1..];
        assert restP == whole[|p[0]| + 1..] == z + [separator] + restQ;
        var j := OneChunkMore(p[1..], z, q[1..], separator);
        assert p[j + 1] == p[1..][j];
      }
    }
  }

  /** Joining with the boundary after part `i` moved. */
  lemma {:induction false} JoinSplitsAt(parts: seq<string>, i: nat, separator: char)
    requires i + 1 < |parts|
    ensures Join(parts, separator) ==
            Join(parts[..i] + [parts[i] + [separator] + parts[i + 1]] + parts[i + 2..], separator)
    decreases i
  {
    var merged := parts[..i] + [parts[i] + [separator] + parts[i + 1]] + parts[i + 2..];
    if i == 0 {
      if |parts| > 2 {
        assert parts[1..][1..] == parts[2..] == merged[1..];
        assert Join(parts[1..], separator) == parts[1] + [separator] + Join(parts[2..], separator);
      } else {
        assert merged == [parts[0] + [separator] + parts[1]];
        assert Join(parts[1..], separator) == parts[1];
      }
    } else {
      JoinSplitsAt(parts[1..], i - 1, separator);
      assert merged[1..] == parts[1..][..i - 1] + [parts[1..][i - 1] + [separator] + parts[1..][i]]
             + parts[1..][i + 1..];
    }
  }

  lemma ShiftKeepsJoin(p: seq<string>, i: nat, left: string, right: string, separator: char) returns (q: seq<string>)
    requires i + 1 < |p| && left != p[i]
    requires left + [separator] + right == p[i] + [separator] + p[i + 1]
    ensures q == p[i := left][i + 1 := right] && q != p && Join(q, separator) == Join(p, separator)
  {
    q := p[i := left][i + 1 := right];
    assert q[i] != p[i];
    JoinSplitsAt(p, i, separator);
    JoinSplitsAt(q, i, separator);
    assert q[..i] == p[..i] && q[i + 2..] == p[i + 2..];
  }

  /** The boundary moves back to a separator inside the part before it. */
  lemma CutBefore(part: string, next: string, separator: char) returns (left: string, right: string)
    requires part != "" && separator in part[1..] && next != ""
    ensures left != "" && right != "" && left != part
    ensures left + [separator] + right == part + [separator] + next
  {
    var k :| 0 <= k < |part[1..]| && part[1..][k] == separator;
    left, right := part[..k + 1], part[k + 2..] + [separator] + next;
    assert part == left + [separator] + part[k + 2..];
  }

  /** The boundary moves on to a separator inside the part after it. */
  lemma CutAfter(before: string, part: string, separator: char) returns (left: string, right: string)
    requires part != "" && separator in part[..|part| - 1] && before != ""
    ensures left != "" && right != "" && left != before
    ensures left + [separator] + right == before + [separator] + part
  {
    var k :| 0 <= k < |part| - 1 && part[k] == separator;
    left, right := before + [separator] + part[..k], part[k + 1..];
    assert part == part[..k] + [separator] + right;
  }

  /** Moving a boundary brings in no new character. */
  lemma ShiftedCharacters(p: seq<string>, at: nat, left: string, right: string, separator: char)
    requires at + 1 < |p| && left + [separator] + right == p[at] + [separator] + p[at + 1]
    ensures forall c | c in left || c in right :: c == separator || c in p[at] || c in p[at + 1]
  {
    forall c | c in left || c in right ensures c == separator || c in p[at] || c in p[at + 1] {
      assert c in left + [separator] + right;
    }
  }

  /** Such a list exists exactly when some boundary can be shifted. */
  lemma ShiftGivesTwin(p: seq<string>, separator: char) returns (q: seq<string>)
    requires NonEmptyParts(p) && Shiftable(p, separator)
    ensures |q| == |p| && q != p && NonEmptyParts(q) && Join(q, separator) == Join(p, separator)
    ensures forall i, c | 0 <= i < |q| && c in q[i] :: c == separator || exists j :: 0 <= j < |p| && c in p[j]
  {
    var i :| 0 <= i < |p| && p[i] != "" &&
             ((i < |p| - 1 && separator in p[i][1..]) || (i > 0 && separator in p[i][..|p[i]| - 1]));
    var at, left, right;
    if i < |p| - 1 && separator in p[i][1..] {
      at := i;
      left, right := CutBefore(p[i], p[i + 1], separator);
    } else {
      at := i - 1;
      left, right := CutAfter(p[i - 1], p[i], separator);
    }
    q := ShiftKeepsJoin(p, at, left, right, separator);
    ShiftedCharacters(p, at, left, right, separator);
  }
}
