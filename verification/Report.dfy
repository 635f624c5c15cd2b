/** Breaking a finding's explanation into the lines that the PDF writer takes. */
module Report {
  import opened Text

  lemma {:induction false} JoinSnoc(parts: seq<string>, w: string)
    ensures Join(parts + [w], " ") == if parts == [] then w else Join(parts, " ") + (" " + w)
  {
    if |parts| > 1 {
      assert (parts + [w])[1..] == parts[1..] + [w];
      JoinSnoc(parts[1..], w);
      Assoc(parts[0] + " ", Join(parts[1..], " "), " " + w);
    } else if |parts| == 1 {
      assert (parts + [w])[1..] == [w];
      Assoc(parts[0], " ", w);
    }
  }

  lemma FlattenSnoc<T>(parts: seq<seq<T>>, last: seq<T>)
    ensures Flatten(parts + [last]) == Flatten(parts) + last
  {
    FlattenAppend(parts, [last]);
    assert [last][1..] == [] && last + [] == last;
  }

  /** `lines` are `groups` of words, each line filled as far as `width` allows before the
      next one starts. */
  ghost predicate Filled(groups: seq<seq<string>>, lines: seq<string>, width: int) {
    && |lines| == |groups|
    && (forall k :: 0 <= k < |groups| ==> lines[k] == Join(groups[k], " "))
    && (forall k :: 0 <= k < |groups| && |groups[k]| > 1 ==> |lines[k]| <= width)
    && (forall k :: 0 < k < |groups| ==> groups[k] != [] && |lines[k - 1]| + 1 + |groups[k][0]| > width)
  }

  ghost predicate Fits(lines: seq<string>, g: seq<string>, line: string, width: int) {
    && line == Join(g, " ") && (|g| > 1 ==> |line| <= width)
    && (lines != [] ==> g != [] && |lines[|lines| - 1]| + 1 + |g[0]| > width)
  }

  lemma FilledSnoc(groups: seq<seq<string>>, lines: seq<string>, g: seq<string>, line: string, width: int)
    requires Filled(groups, lines, width) && Fits(lines, g, line, width)
    ensures Filled(groups + [g], lines + [line], width)
  {
  }

  lemma Empty(width: int)
    ensures Filled([], [], width) && Fits([], [], "", width)
    ensures Flatten<string>([]) + [] == []
  {
  }

  lemma Alone(w: string)
    ensures Join([w], " ") == w
  {
  }

  /** wrap, after strings.Fields: no word is lost, reordered or split, a line is longer than
      `width` only if it is a single word, and no line ends early. The first line is empty
      exactly when the first word fills the width alone. */
  method Wrap(words: seq<string>, width: int) returns (lines: seq<string>, ghost groups: seq<seq<string>>)
    requires forall i :: 0 <= i < |words| ==> words[i] != ""
    ensures Flatten(groups) == words && Filled(groups, lines, width)
    ensures lines != [] && lines[0] == "" <==> words != [] && |words[0]| + 1 > width
  {
    hide Filled, Join, Flatten;
    lines, groups := [], [];
    var cur := "";
    Empty(width);
    ghost var g: seq<string> := [];
    for i := 0 to |words|
      invariant (cur == "" <==> g == []) && (g == [] <==> i == 0)
      invariant Flatten(groups) + g == words[..i]
      invariant Filled(groups, lines, width) && Fits(lines, g, cur, width)
      invariant i > 0 ==> (lines != [] && lines[0] == "" <==> |words[0]| + 1 > width)
      invariant i > 0 && lines == [] ==> |words[0]| + 1 <= width
    {
      var w := words[i];
      JoinSnoc(g, w);
      assert words[..i + 1] == words[..i] + [w];
      Assoc(Flatten(groups), g, [w]);
      if |cur| + |w| + 1 > width {
        FlattenSnoc(groups, g);
        FilledSnoc(groups, lines, g, cur, width);
        Alone(w);
        lines, groups := lines + [cur], groups + [g];
        cur, g := w, [w];
        continue;
      }
      if cur == "" {
        cur := w;
      } else {
        cur := cur + (" " + w);
      }
      g := g + [w];
    }
    assert words[..|words|] == words;
    if cur != "" {
      FlattenSnoc(groups, g);
      FilledSnoc(groups, lines, g, cur, width);
      lines, groups := lines + [cur], groups + [g];
    } else {
      assert Flatten(groups) + g == Flatten(groups);
    }
  }
}
