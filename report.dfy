/**
 * The text report (`gettext`): a banner, a title, a banner, the project
 * line, one line per category in table order, and a closing banner with no
 * newline after it.
 */
module Report {
  import opened Categories

  /** `'=' * n`: a rule of `n` '=' characters. */
  function Rule(n: nat): (r: string)
    ensures |r| == n
    ensures forall i :: 0 <= i < n ==> r[i] == '='
  {
    if n == 0 then "" else Rule(n - 1) + "="
  }

  const Banner: string := Rule(50)
  const Title: string := "= Counting this project time by TimeMe = "

  predicate NoNewline(s: string) {
    '\n' !in s
  }

  function ProjectLine(projectName: string): string {
    "PROJECT: " + projectName
  }

  function CatLine(c: Category): string {
    c.catname + ": " + c.cattimeStr
  }

  /** The four lines above the category lines. */
  function Header(projectName: string): seq<string> {
    [Banner, Title, Banner, ProjectLine(projectName)]
  }

  /** One line per category, in table order. */
  function CatLines(cats: seq<Category>): (ls: seq<string>)
    ensures |ls| == |cats|
    ensures forall k :: 0 <= k < |cats| ==> ls[k] == CatLine(cats[k])
  {
    seq(|cats|, k requires 0 <= k < |cats| => CatLine(cats[k]))
  }

  /** Each line followed by a newline. */
  function Unlines(ls: seq<string>): string {
    if ls == [] then "" else ls[0] + "\n" + Unlines(ls[1..])
  }

  /** The report for a project and a table. */
  function ReportText(projectName: string, cats: seq<Category>): string {
    Unlines(Header(projectName) + CatLines(cats)) + Banner
  }

  /** The text cut at every newline (Python's `str.split('\n')`). */
  function Split(s: string): (r: seq<string>)
    ensures |r| >= 1
  {
    if s == [] then [""]
    else if s[0] == '\n' then [""] + Split(s[1..])
    else
      var t := Split(s[1..]);
      [[s[0]] + t[0]] + t[1..]
  }

  /** Appending one line to the lines written so far. */
  lemma {:induction false} UnlinesSnoc(ls: seq<string>, l: string)
    ensures Unlines(ls + [l]) == Unlines(ls) + l + "\n"
  {
    if ls != [] {
      assert (ls + [l])[1..] == ls[1..] + [l];
      UnlinesSnoc(ls[1..], l);
    }
  }

  /** A line without a newline, a newline, and the rest: splitting gives back the line first. */
  lemma {:induction false} SplitLine(l: string, rest: string)
    requires NoNewline(l)
    ensures Split(l + "\n" + rest) == [l] + Split(rest)
  {
    var s := l + "\n" + rest;
    if l == [] {
      assert s == "\n" + rest;
    } else {
      assert s[1..] == l[1..] + "\n" + rest;
      SplitLine(l[1..], rest);
      assert [l[0]] + l[1..] == l;
    }
  }

  /** A line without newlines splits into itself. */
  lemma {:induction false} SplitSingle(l: string)
    requires NoNewline(l)
    ensures Split(l) == [l]
  {
    if l != [] {
      SplitSingle(l[1..]);
      assert [l[0]] + l[1..] == l;
    }
  }

  /** Joining newline-free lines and splitting the result gives the lines back. */
  lemma {:induction false} SplitUnlines(ls: seq<string>, last: string)
    requires forall k :: 0 <= k < |ls| ==> NoNewline(ls[k])
    requires NoNewline(last)
    ensures Split(Unlines(ls) + last) == ls + [last]
  {
    if ls == [] {
      assert Unlines(ls) + last == last;
      SplitSingle(last);
    } else {
      assert Unlines(ls) + last == ls[0] + "\n" + (Unlines(ls[1..]) + last);
      SplitLine(ls[0], Unlines(ls[1..]) + last);
      SplitUnlines(ls[1..], last);
    }
  }

  /**
   * The report's layout: when no name or display text holds a newline, the
   * report has |cats| + 5 lines: banner, title, banner, project line, the
   * category lines in table order, and the closing banner.
   */
  lemma ReportLayout(projectName: string, cats: seq<Category>)
    requires NoNewline(projectName)
    requires forall k :: 0 <= k < |cats| ==> NoNewline(cats[k].catname) && NoNewline(cats[k].cattimeStr)
    ensures var lines := Split(ReportText(projectName, cats));
            && lines == Header(projectName) + CatLines(cats) + [Banner]
            && |lines| == |cats| + 5
            && lines[0] == Banner && lines[1] == Title && lines[2] == Banner
            && lines[3] == "PROJECT: " + projectName
            && (forall k :: 0 <= k < |cats| ==> lines[4 + k] == cats[k].catname + ": " + cats[k].cattimeStr)
            && lines[|cats| + 4] == Banner
  {
    var ls := Header(projectName) + CatLines(cats);
    assert NoNewline(Banner);
    assert NoNewline(Title);
    forall k | 0 <= k < |ls| ensures NoNewline(ls[k]) {
      if k >= 4 {
        assert ls[k] == CatLine(cats[k - 4]);
      }
    }
    SplitUnlines(ls, Banner);
  }
}
