/**
 * The landing hero's title, set on two rows: the words of the title split
 * on single spaces, the first half (rounded up) on the first row and the
 * rest on the second.
 */
module HeroTitle {
  import Text

  /** ceil(n / 2): the number of words on the first row. */
  function Halfway(n: nat): nat {
    (n + 1) / 2
  }

  /** The two rows, as the words of the title joined by single spaces. */
  function TitleLines(title: string): (string, string) {
    var words := Text.Split(title, ' ');
    var h := Halfway(|words|);
    (Text.Join(words[..h], ' '), Text.Join(words[h..], ' '))
  }

  /** Joining one more word adds a space only after a non-empty list. */
  lemma JoinSnoc(ws: seq<string>, w: string)
    ensures Text.Join(ws + [w], ' ') == if ws == [] then w else Text.Join(ws, ' ') + " " + w
  {
    if ws == [] {
      assert ws + [w] == [w];
    } else {
      Text.JoinAppend(ws, [w], ' ');
    }
  }

  /** The `reduce` over the words: word `i` goes to the first row while
      `i < halfway`, with a space before every word but the row's first. */
  method SplitTitle(title: string) returns (line1: string, line2: string)
    ensures (line1, line2) == TitleLines(title)
  {
    var words := Text.Split(title, ' ');
    var halfway := Halfway(|words|);
    line1, line2 := "", "";
    for i := 0 to |words|
      invariant i <= halfway ==> line1 == Text.Join(words[..i], ' ') && line2 == ""
      invariant i > halfway ==> line1 == Text.Join(words[..halfway], ' ') && line2 == Text.Join(words[halfway..i], ' ')
    {
      if i < halfway {
        JoinSnoc(words[..i], words[i]);
        assert words[..i + 1] == words[..i] + [words[i]];
        line1 := line1 + (if i > 0 then " " else "") + words[i];
      } else {
        JoinSnoc(words[halfway..i], words[i]);
        assert words[halfway..i + 1] == words[halfway..i] + [words[i]];
        line2 := line2 + (if i > halfway then " " else "") + words[i];
      }
    }
    assert words[..|words|] == words;
    if |words| <= halfway {
      assert words[halfway..] == [];
    }
  }

  /** With at least two words, the rows joined by a space give back the title. */
  lemma RowsRejoinTitle(title: string)
    requires |Text.Split(title, ' ')| >= 2
    ensures TitleLines(title).0 + " " + TitleLines(title).1 == title
  {
    var words := Text.Split(title, ' ');
    var h := Halfway(|words|);
    assert words == words[..h] + words[h..];
    Text.JoinAppend(words[..h], words[h..], ' ');
    Text.JoinSplit(title, ' ');
  }

  /** A title without spaces is the first row; the second row is empty. */
  lemma OneWordTitle(title: string)
    requires ' ' !in title
    ensures TitleLines(title) == (title, "")
  {
    Text.SplitWord(title, ' ');
    assert Text.Split(title, ' ')[..1] == [title];
  }

  /** With at least two words, splitting each row again gives its words, and
      the first row has as many words as the second or one more. */
  lemma RowWordCounts(title: string)
    requires |Text.Split(title, ' ')| >= 2
    ensures var words := Text.Split(title, ' ');
      var h := Halfway(|words|);
      Text.Split(TitleLines(title).0, ' ') == words[..h] &&
      Text.Split(TitleLines(title).1, ' ') == words[h..]
    ensures var (l1, l2) := TitleLines(title);
      var d := |Text.Split(l1, ' ')| - |Text.Split(l2, ' ')|;
      d == 0 || d == 1
  {
    var words := Text.Split(title, ' ');
    var h := Halfway(|words|);
    assert forall w :: w in words[..h] ==> w in words;
    assert forall w :: w in words[h..] ==> w in words;
    Text.SplitJoin(words[..h], ' ');
    Text.SplitJoin(words[h..], ' ');
  }
}
