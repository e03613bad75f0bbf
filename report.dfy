/**
 * The fixed-width printout of a category (its `__str__`): a title line of
 * asterisks around the name, one line per ledger entry and a `Total:` line,
 * joined by newlines with none at the end.
 */
module Report {
  import opened Text
  import opened Ledger

  const LineWidth := 30
  const DescriptionWidth := 23
  const AmountWidth := 7

  /** Asterisks on each side of the name: `(30 - len(name)) // 2`, none if negative. */
  function TitlePadding(name: string): nat
  {
    var pad := (LineWidth - |name|) / 2;
    if pad < 0 then 0 else pad
  }

  /**
   * The title line.  It is 30 wide only for names of even length up to 30;
   * an odd-length name shorter than 30 gives 29, and from 29 characters on
   * no asterisks are written at all.
   */
  function Title(name: string): (t: string)
    ensures |name| <= 30 && |name| % 2 == 0 ==> |t| == 30
    ensures |name| < 30 && |name| % 2 == 1 ==> |t| == 29
    ensures |name| >= 29 ==> t == name
    ensures var p := |t| - |name|;
      && p % 2 == 0 && t[p / 2..p / 2 + |name|] == name
      && (forall i :: 0 <= i < p / 2 ==> t[i] == '*')
      && (forall i :: p / 2 + |name| <= i < |t| ==> t[i] == '*')
  {
    var stars := Repeat('*', TitlePadding(name));
    stars + name + stars
  }

  /** `f'{amount:7.2f}'`. */
  function AmountField(cents: int): string
  {
    RJust(Fixed2(cents), AmountWidth)
  }

  /** One ledger line: the description cut and padded to 23, then the amount. */
  function EntryLine(e: Entry): string
  {
    LJust(Take(e.description, DescriptionWidth), DescriptionWidth) + AmountField(e.amount)
  }

  /** One line per ledger entry, in ledger order. */
  function EntryLines(ledger: seq<Entry>): seq<string>
  {
    seq(|ledger|, i requires 0 <= i < |ledger| => EntryLine(ledger[i]))
  }

  function TotalLine(balance: int): string
  {
    "Total:" + AmountField(balance)
  }

  /** What `str(category)` returns for a category with this name and ledger. */
  function Render(name: string, ledger: seq<Entry>): string
  {
    Title(name) + "\n" + JoinLines(EntryLines(ledger)) + "\n" + TotalLine(Balance(ledger))
  }

  /**
   * An entry line is the first 23 characters of the description, padded
   * with spaces to 23, followed by the amount right-aligned in at least 7
   * characters; it is exactly 30 wide when the amount lies between -999.99
   * and 9999.99, and the amount reads back from the text after column 23.
   */
  lemma EntryLineLayout(e: Entry)
    ensures var line := EntryLine(e);
      && |line| >= LineWidth
      && (|line| == LineWidth <==> -100000 < e.amount < 1000000)
      && line[..|Take(e.description, 23)|] == Take(e.description, 23)
      && (forall i :: |Take(e.description, 23)| <= i < 23 ==> line[i] == ' ')
      && ParseFixed2(SkipSpaces(line[23..])) == Some(e.amount)
  {
    var line := EntryLine(e);
    var desc := LJust(Take(e.description, DescriptionWidth), DescriptionWidth);
    Fixed2Width(e.amount);
    assert line[..23] == desc;
    AmountFieldReadsBack(e.amount);
    assert line[23..] == AmountField(e.amount);
  }

  /** The Total line reads back as the balance. */
  lemma TotalLineLayout(balance: int)
    ensures var line := TotalLine(balance);
      && line[..6] == "Total:"
      && ParseFixed2(SkipSpaces(line[6..])) == Some(balance)
      && (|line| == 13 <==> -100000 < balance < 1000000)
  {
    Fixed2Width(balance);
    AmountFieldReadsBack(balance);
    assert TotalLine(balance)[6..] == AmountField(balance);
  }

  /** Leading spaces dropped (the reader's side of a right-aligned field). */
  function SkipSpaces(s: string): string
  {
    if s != [] && s[0] == ' ' then SkipSpaces(s[1..]) else s
  }

  lemma {:induction false} SkipPadding(n: nat, s: string)
    requires s == [] || s[0] != ' '
    ensures SkipSpaces(Repeat(' ', n) + s) == s
  {
    if n > 0 {
      assert (Repeat(' ', n) + s)[1..] == Repeat(' ', n - 1) + s by {
        assert Repeat(' ', n) == [' '] + Repeat(' ', n - 1) by {
          RepeatFront(n);
        }
      }
      SkipPadding(n - 1, s);
    }
  }

  lemma {:induction false} RepeatFront(n: nat)
    requires n > 0
    ensures Repeat(' ', n) == [' '] + Repeat(' ', n - 1)
  {
    if n > 1 {
      RepeatFront(n - 1);
    }
  }

  lemma AmountFieldReadsBack(cents: int)
    ensures ParseFixed2(SkipSpaces(AmountField(cents))) == Some(cents)
    ensures |AmountField(cents)| == Max(|Fixed2(cents)|, 7)
  {
    var f := Fixed2(cents);
    Fixed2Characters(cents);
    assert f[0] != ' ' by {
      assert f[0] in f;
    }
    if |f| < AmountWidth {
      SkipPadding(AmountWidth - |f|, f);
    } else {
      SkipPadding(0, f);
      assert Repeat(' ', 0) + f == f;
    }
    Fixed2RoundTrip(cents);
  }

  lemma {:induction false} RepeatOmits(c: char, n: nat, x: char)
    requires x != c
    ensures x !in Repeat(c, n)
  {
    if n > 0 {
      RepeatOmits(c, n - 1, x);
    }
  }

  lemma AmountFieldNoNewline(cents: int)
    ensures '\n' !in AmountField(cents)
  {
    Fixed2Characters(cents);
    if |Fixed2(cents)| < AmountWidth {
      RepeatOmits(' ', AmountWidth - |Fixed2(cents)|, '\n');
    }
  }

  lemma EntryLineNoNewline(e: Entry)
    requires '\n' !in e.description
    ensures '\n' !in EntryLine(e)
  {
    AmountFieldNoNewline(e.amount);
    var d := Take(e.description, DescriptionWidth);
    assert '\n' !in d by {
      assert d == e.description[..|d|];
    }
    RepeatOmits(' ', DescriptionWidth - |d|, '\n');
  }

  lemma TotalLineNoNewline(balance: int)
    ensures '\n' !in TotalLine(balance)
  {
    AmountFieldNoNewline(balance);
    assert '\n' !in "Total:";
  }

  lemma TitleNoNewline(name: string)
    requires '\n' !in name
    ensures '\n' !in Title(name)
  {
    RepeatOmits('*', TitlePadding(name), '\n');
  }

  /**
   * Read line by line, the printout is the title, one line per entry in
   * ledger order (an empty line when there are none) and the Total line
   * with the balance: |ledger| + 2 lines, or 3 for an empty ledger.
   */
  lemma RenderLines(name: string, ledger: seq<Entry>)
    requires '\n' !in name
    requires forall i :: 0 <= i < |ledger| ==> '\n' !in ledger[i].description
    ensures SplitLines(Render(name, ledger))
         == [Title(name)] + (if ledger == [] then [""] else EntryLines(ledger)) + [TotalLine(Balance(ledger))]
  {
    var lines := EntryLines(ledger);
    var title, body, total := Title(name), JoinLines(lines), TotalLine(Balance(ledger));
    TitleNoNewline(name);
    TotalLineNoNewline(Balance(ledger));
    SplitAroundMiddle(title, body, total);
    if ledger != [] {
      forall i | 0 <= i < |lines|
        ensures '\n' !in lines[i]
      {
        EntryLineNoNewline(ledger[i]);
      }
      SplitJoinLines(lines);
    }
  }

  lemma SplitAroundMiddle(first: string, middle: string, last: string)
    requires '\n' !in first && '\n' !in last
    ensures SplitLines(first + "\n" + middle + "\n" + last) == [first] + SplitLines(middle) + [last]
  {
    calc {
      SplitLines(first + "\n" + middle + "\n" + last);
      { assert first + "\n" + middle + "\n" + last == first + "\n" + (middle + "\n" + last); }
      SplitLines(first + "\n" + (middle + "\n" + last));
      { SplitAtNewline(first, middle + "\n" + last); }
      SplitLines(first) + SplitLines(middle + "\n" + last);
      { SplitAtNewline(middle, last); }
      SplitLines(first) + (SplitLines(middle) + SplitLines(last));
      { SplitNoNewline(first); SplitNoNewline(last); }
      [first] + SplitLines(middle) + [last];
    }
  }
}
