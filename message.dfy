/** The text of the notification (`create_message`): a header with the number
    of new unread messages over all accounts, one line per account, and a last
    line with the number of unread messages from important contacts. */
module Message {
  import opened Decimal

  /** What the message says about one account: its label (`email_distinction`)
      and its `unread_total`. */
  datatype Summary = Summary(distinction: string, unread: nat)

  /** Pairs each account label with its count, in account order. */
  function Summaries(labels: seq<string>, counts: seq<nat>): (r: seq<Summary>)
    requires |labels| == |counts|
    ensures |r| == |labels|
    ensures forall i :: 0 <= i < |r| ==> r[i] == Summary(labels[i], counts[i])
  {
    seq(|labels|, i requires 0 <= i < |labels| => Summary(labels[i], counts[i]))
  }

  /** The sum of the accounts' unread totals. */
  function UnreadSum(s: seq<Summary>): nat
    decreases |s|
  {
    if s == [] then 0 else UnreadSum(s[..|s| - 1]) + s[|s| - 1].unread
  }

  function Header(total: nat): string {
    NatToString(total) + " new message!"
  }

  function AccountLine(s: Summary): string {
    s.distinction + " has " + NatToString(s.unread) + " unread emails"
  }

  function Footer(important: nat): string {
    NatToString(important) + " important emails"
  }

  /** One newline-terminated line per account, in account order. */
  function AccountLines(s: seq<Summary>): string
    decreases |s|
  {
    if s == [] then "" else AccountLines(s[..|s| - 1]) + AccountLine(s[|s| - 1]) + "\n"
  }

  /** The whole message: header, blank line, account lines, and the important
      count with no newline after it. */
  function Compose(s: seq<Summary>, important: nat): string {
    Header(UnreadSum(s)) + "\n\n" + AccountLines(s) + Footer(important)
  }

  /** The account lines of the message, as a list. */
  function LinesOf(s: seq<Summary>): seq<string> {
    seq(|s|, i requires 0 <= i < |s| => AccountLine(s[i]))
  }

  /** The lines of a text: the pieces between its newline characters. */
  function SplitLines(s: string): (r: seq<string>)
    ensures |r| >= 1
    decreases |s|
  {
    if s == [] then [""]
    else
      var rest := SplitLines(s[1..]);
      if s[0] == '\n' then [""] + rest else [[s[0]] + rest[0]] + rest[1..]
  }

  lemma {:induction false} SplitAppend(a: string, b: string)
    ensures SplitLines(a + "\n" + b) == SplitLines(a) + SplitLines(b)
    decreases |a|
  {
    if a == [] {
      assert (a + "\n" + b)[1..] == b;
    } else {
      assert (a + "\n" + b)[1..] == a[1..] + "\n" + b;
      SplitAppend(a[1..], b);
    }
  }

  lemma {:induction false} SplitSingle(a: string)
    requires '\n' !in a
    ensures SplitLines(a) == [a]
    decreases |a|
  {
    if a != [] {
      assert a[0] in a && a[0] != '\n';
      SplitSingle(a[1..]);
      assert [a[0]] + a[1..] == a;
    }
  }

  /** An account line is a single line. */
  lemma AccountLineIsSingle(s: Summary)
    requires '\n' !in s.distinction
    ensures SplitLines(AccountLine(s)) == [AccountLine(s)]
  {
    assert '\n' !in NatToString(s.unread);
    SplitSingle(AccountLine(s));
  }

  lemma LinesStep(s: seq<Summary>, rest: string)
    requires s != []
    ensures AccountLines(s) + rest == AccountLines(s[..|s| - 1]) + (AccountLine(s[|s| - 1]) + "\n" + rest)
  {
    var n := |s| - 1;
    AppendLine(AccountLines(s[..n]), AccountLine(s[n]), rest);
  }

  lemma AppendLine(p: string, line: string, rest: string)
    ensures p + line + "\n" + rest == p + (line + "\n" + rest)
  {
  }

  lemma LinesOfStep(s: seq<Summary>)
    requires s != []
    ensures LinesOf(s) == LinesOf(s[..|s| - 1]) + [AccountLine(s[|s| - 1])]
  {
    var n := |s| - 1;
    assert forall i :: 0 <= i < n ==> s[..n][i] == s[i];
  }

  lemma {:induction false} AccountLinesSplit(s: seq<Summary>, rest: string)
    requires forall i :: 0 <= i < |s| ==> '\n' !in s[i].distinction
    ensures SplitLines(AccountLines(s) + rest) == LinesOf(s) + SplitLines(rest)
    decreases |s|
  {
    if s == [] {
      assert AccountLines(s) + rest == rest;
    } else {
      var n := |s| - 1;
      var line := AccountLine(s[n]);
      AccountLineIsSingle(s[n]);
      SplitAppend(line, rest);
      AccountLinesSplit(s[..n], line + "\n" + rest);
      LinesStep(s, rest);
      LinesOfStep(s);
    }
  }

  /** When no account label holds a newline, the message has exactly these
      lines: the header, a blank line, one line per account in order, and the
      important count. */
  lemma MessageLines(s: seq<Summary>, important: nat)
    requires forall i :: 0 <= i < |s| ==> '\n' !in s[i].distinction
    ensures SplitLines(Compose(s, important)) ==
      [Header(UnreadSum(s)), ""] + LinesOf(s) + [Footer(important)]
  {
    var header, footer := Header(UnreadSum(s)), Footer(important);
    var accountLines := LinesOf(s);
    var body := AccountLines(s) + footer;
    assert Compose(s, important) == header + "\n\n" + body by {
      Regroup(header, "\n\n", AccountLines(s), footer);
    }
    assert SplitLines(body) == accountLines + [footer] by {
      AccountLinesSplit(s, footer);
      FooterIsSingle(important);
    }
    SplitAfterBlankLine(header, body);
    HeaderIsSingle(UnreadSum(s));
    LineListRegroup(header, "", accountLines, footer);
  }

  lemma LineListRegroup(a: string, b: string, middle: seq<string>, z: string)
    ensures [a] + [b] + (middle + [z]) == [a, b] + middle + [z]
  {
  }

  lemma Regroup(a: string, b: string, c: string, d: string)
    ensures a + b + c + d == a + b + (c + d)
    ensures a + b + c + d == a + (b + c + d)
  {
  }

  lemma SplitAfterBlankLine(first: string, body: string)
    ensures SplitLines(first + "\n\n" + body) == SplitLines(first) + [""] + SplitLines(body)
  {
    SplitAppend("", body);
    SplitAppend(first, "" + "\n" + body);
    assert first + "\n\n" + body == first + "\n" + ("" + "\n" + body);
  }

  lemma HeaderIsSingle(n: nat)
    ensures SplitLines(Header(n)) == [Header(n)]
  {
    var d := NatToString(n);
    assert '\n' !in d;
    assert '\n' !in " new message!";
    SplitSingle(d + " new message!");
  }

  lemma FooterIsSingle(n: nat)
    ensures SplitLines(Footer(n)) == [Footer(n)]
  {
    var d := NatToString(n);
    assert '\n' !in d;
    assert '\n' !in " important emails";
    SplitSingle(d + " important emails");
  }

  /** The numbers the reader sees: the first line starts with the unread sum,
      the last line with the important count. */
  lemma MessageReadsBack(s: seq<Summary>, important: nat)
    requires forall i :: 0 <= i < |s| ==> '\n' !in s[i].distinction
    ensures var lines := SplitLines(Compose(s, important));
      && |lines| == |s| + 3
      && LeadingNumber(lines[0]) == UnreadSum(s)
      && LeadingNumber(lines[|lines| - 1]) == important
  {
    MessageLines(s, important);
    LeadingNumberOf(UnreadSum(s), " new message!");
    LeadingNumberOf(important, " important emails");
  }

  /** One account with one new message, from an important contact. */
  lemma OneImportantMessage(name: string)
    ensures Compose([Summary(name, 1)], 1) ==
      "1 new message!\n\n" + (name + " has 1 unread emails\n" + "1 important emails")
  {
    var s := [Summary(name, 1)];
    var one := NatToString(1);
    assert one == "1" by {
      assert one == [DigitChar(1)];
    }
    assert UnreadSum(s) == 1 by {
      assert s[..0] == [];
    }
    assert Header(UnreadSum(s)) + "\n\n" == "1 new message!\n\n";
    var lines := AccountLines(s);
    assert lines == name + " has 1 unread emails\n" by {
      assert s[..0] == [];
      assert AccountLines(s[..0]) == "";
      var line := AccountLine(s[0]);
      assert line == name + (" has " + one + " unread emails");
      assert " has " + one + " unread emails" == " has 1 unread emails";
      assert lines == line + "\n";
    }
    assert Footer(1) == "1 important emails";
    Regroup(Header(UnreadSum(s)), "\n\n", lines, Footer(1));
  }
}
