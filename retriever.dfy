/** One run of the unread-mail notifier: the account records, the per-run
    sender table, and the steps of `main` — scan every account, decide,
    compose and notify, reset the counters that went over the ceiling.
    The mailbox listings come in as parameters in place of the IMAP sessions;
    sending the text message is reduced to producing its body. */
module Retriever {
  import opened SenderTable
  import opened Scan
  import opened Decision
  import opened Message

  /** One mail account as the account file records it. The connection
      parameters and the label never change during a run; `pastEmails` (the
      ids unread at the last run) and `unreadTotal` (new unread messages) do. */
  class Account {
    const username: string
    const password: string
    const domain: string
    const inbox: string
    const emailDistinction: string
    var pastEmails: seq<nat>
    var unreadTotal: nat

    constructor (username: string, password: string, domain: string, inbox: string,
                 emailDistinction: string, pastEmails: seq<nat>, unreadTotal: nat)
      ensures this.username == username && this.password == password
      ensures this.domain == domain && this.inbox == inbox
      ensures this.emailDistinction == emailDistinction
      ensures this.pastEmails == pastEmails && this.unreadTotal == unreadTotal
    {
      this.username := username;
      this.password := password;
      this.domain := domain;
      this.inbox := inbox;
      this.emailDistinction := emailDistinction;
      this.pastEmails := pastEmails;
      this.unreadTotal := unreadTotal;
    }
  }

  /** The accounts' unread totals, in account order. */
  function TotalsOf(accounts: seq<Account>): (r: seq<nat>)
    reads accounts
    ensures |r| == |accounts|
    ensures forall i :: 0 <= i < |accounts| ==> r[i] == accounts[i].unreadTotal
  {
    seq(|accounts|, i reads accounts requires 0 <= i < |accounts| => accounts[i].unreadTotal)
  }

  /** The accounts' stored unread ids, in account order. */
  function PastsOf(accounts: seq<Account>): (r: seq<seq<nat>>)
    reads accounts
    ensures |r| == |accounts|
    ensures forall i :: 0 <= i < |accounts| ==> r[i] == accounts[i].pastEmails
  {
    seq(|accounts|, i reads accounts requires 0 <= i < |accounts| => accounts[i].pastEmails)
  }

  /** The accounts' labels, in account order. */
  function LabelsOf(accounts: seq<Account>): (r: seq<string>)
    ensures |r| == |accounts|
    ensures forall i :: 0 <= i < |accounts| ==> r[i] == accounts[i].emailDistinction
  {
    seq(|accounts|, i requires 0 <= i < |accounts| => accounts[i].emailDistinction)
  }

  /** The state of one run: the accounts loaded at start, the configuration,
      and the sender table `@from`, which starts empty on every run. */
  class MailRetriever {
    const accounts: seq<Account>
    const importantContacts: seq<string>
    const maxUnreadEmails: int
    var from: Table

    /** Every account record appears once in the list. */
    ghost predicate Valid() {
      forall i, j :: 0 <= i < j < |accounts| ==> accounts[i] != accounts[j]
    }

    constructor (accounts: seq<Account>, importantContacts: seq<string>, maxUnreadEmails: int)
      requires forall i, j :: 0 <= i < j < |accounts| ==> accounts[i] != accounts[j]
      ensures Valid()
      ensures this.accounts == accounts
      ensures this.importantContacts == importantContacts
      ensures this.maxUnreadEmails == maxUnreadEmails
      ensures from == map[]
    {
      this.accounts := accounts;
      this.importantContacts := importantContacts;
      this.maxUnreadEmails := maxUnreadEmails;
      from := map[];
    }

    /** `get_unread_mail`: walks the account's unread listing, counting every
        message in the sender table and the ones whose id is not among
        `pastEmails` as new; returns the new count and the listed ids. */
    method GetUnreadMail(listing: seq<Envelope>, pastEmails: seq<nat>) returns (count: nat, ids: seq<nat>)
      modifies this
      ensures count == NewCount(pastEmails, listing)
      ensures ids == Ids(listing)
      ensures from == Tally(old(from), listing)
    {
      count := 0;
      ids := [];
      var i := 0;
      while i < |listing|
        invariant 0 <= i <= |listing|
        invariant count == NewCount(pastEmails, listing[..i])
        invariant ids == Ids(listing[..i])
        invariant from == Tally(old(from), listing[..i])
      {
        var message := listing[i];
        var sender := SenderKey(message);
        from := from[sender := Get(from, sender) + 1];
        if message.id !in pastEmails {
          count := count + 1;
        }
        ids := ids + [message.id];
        assert listing[..i + 1][..i] == listing[..i];
        i := i + 1;
      }
      assert listing[..i] == listing;
    }

    /** `create_message`: the header with the sum of the unread totals, one
        line per account, and the sum of the sender counters of important
        contacts. */
    method CreateMessage() returns (message: string)
      ensures message == Compose(Summaries(LabelsOf(accounts), TotalsOf(accounts)), ImportantSum(from, importantContacts))
    {
      var sum := UnreadCount();
      message := Header(sum) + "\n\n";
      var lines := AccountLinesText();
      message := message + lines;
      var important := ImportantCount();
      message := message + Footer(important);
    }

    /** The first loop of `create_message`: the sum of the unread totals. */
    method UnreadCount() returns (sum: nat)
      ensures sum == UnreadSum(Summaries(LabelsOf(accounts), TotalsOf(accounts)))
    {
      ghost var summaries := Summaries(LabelsOf(accounts), TotalsOf(accounts));
      sum := 0;
      var i := 0;
      while i < |accounts|
        invariant 0 <= i <= |accounts|
        invariant sum == UnreadSum(summaries[..i])
      {
        assert summaries[..i + 1][..i] == summaries[..i];
        sum := sum + accounts[i].unreadTotal;
        i := i + 1;
      }
      assert summaries[..i] == summaries;
    }

    /** The second loop of `create_message`: one line per account, in order. */
    method AccountLinesText() returns (text: string)
      ensures text == AccountLines(Summaries(LabelsOf(accounts), TotalsOf(accounts)))
    {
      ghost var summaries := Summaries(LabelsOf(accounts), TotalsOf(accounts));
      text := "";
      var i := 0;
      while i < |accounts|
        invariant 0 <= i <= |accounts|
        invariant text == AccountLines(summaries[..i])
      {
        assert summaries[..i + 1][..i] == summaries[..i];
        text := text + AccountLine(Summary(accounts[i].emailDistinction, accounts[i].unreadTotal)) + "\n";
        i := i + 1;
      }
      assert summaries[..i] == summaries;
    }

    /** The last loop of `create_message`: the sum of the sender counters
        whose key is an important contact, visiting the keys in any order. */
    method ImportantCount() returns (sum: nat)
      ensures sum == ImportantSum(from, importantContacts)
    {
      ghost var important := ImportantAmong(from.Keys, importantContacts);
      sum := 0;
      var keys := from.Keys;
      while keys != {}
        invariant keys <= from.Keys
        invariant sum + KeySum(from, ImportantAmong(keys, importantContacts)) == KeySum(from, important)
        decreases keys
      {
        var k :| k in keys;
        if k in importantContacts {
          KeySumRemove(from, ImportantAmong(keys, importantContacts), k);
          assert ImportantAmong(keys, importantContacts) - {k} == ImportantAmong(keys - {k}, importantContacts);
          sum := sum + from[k];
        } else {
          assert ImportantAmong(keys, importantContacts) == ImportantAmong(keys - {k}, importantContacts);
        }
        keys := keys - {k};
      }
      assert ImportantAmong(keys, importantContacts) == {};
    }

    /** `send_text?`: answers true at the first sender counted this run that
        is an important contact, else at the first account with more new
        unread messages than the ceiling, else false. */
    method ShouldSendText() returns (send: bool)
      ensures send <==>
        (exists k :: k in from && k in importantContacts) ||
        (exists i :: 0 <= i < |accounts| && accounts[i].unreadTotal > maxUnreadEmails)
      ensures send == Decide(from, importantContacts, TotalsOf(accounts), maxUnreadEmails)
    {
      var keys := from.Keys;
      while keys != {}
        invariant keys <= from.Keys
        invariant forall k :: k in from && k !in keys ==> k !in importantContacts
        decreases keys
      {
        var k :| k in keys;
        if k in importantContacts {
          return true;
        }
        keys := keys - {k};
      }
      var i := 0;
      while i < |accounts|
        invariant 0 <= i <= |accounts|
        invariant forall j :: 0 <= j < i ==> accounts[j].unreadTotal <= maxUnreadEmails
      {
        if accounts[i].unreadTotal > maxUnreadEmails {
          assert TotalsOf(accounts)[i] > maxUnreadEmails;
          return true;
        }
        i := i + 1;
      }
      return false;
    }

    /** The last step of `send_text`: zeroes the unread total of every
        account above the ceiling and leaves everything else as it was. */
    method ResetCounters()
      requires Valid()
      modifies accounts
      ensures TotalsOf(accounts) == ResetTotals(old(TotalsOf(accounts)), maxUnreadEmails)
      ensures PastsOf(accounts) == old(PastsOf(accounts))
    {
      ghost var totals, pasts := TotalsOf(accounts), PastsOf(accounts);
      var i := 0;
      while i < |accounts|
        invariant 0 <= i <= |accounts|
        invariant forall j :: 0 <= j < i ==>
          accounts[j].unreadTotal == if totals[j] > maxUnreadEmails then 0 else totals[j]
        invariant forall j :: i <= j < |accounts| ==> accounts[j].unreadTotal == totals[j]
        invariant forall j :: 0 <= j < |accounts| ==> accounts[j].pastEmails == pasts[j]
      {
        if accounts[i].unreadTotal > maxUnreadEmails {
          accounts[i].unreadTotal := 0;
        }
        i := i + 1;
      }
      assert TotalsOf(accounts) == ResetTotals(totals, maxUnreadEmails) by {
        var now, want := TotalsOf(accounts), ResetTotals(totals, maxUnreadEmails);
        assert forall j :: 0 <= j < |accounts| ==> now[j] == want[j];
      }
      assert PastsOf(accounts) == pasts by {
        var now := PastsOf(accounts);
        assert forall j :: 0 <= j < |accounts| ==> now[j] == pasts[j];
      }
    }

    /** `send_text`: composes the message (the SMS transport itself is not
        modelled), then resets the counters above the ceiling. */
    method SendText() returns (message: string)
      requires Valid()
      modifies accounts
      ensures message == old(Compose(Summaries(LabelsOf(accounts), TotalsOf(accounts)), ImportantSum(from, importantContacts)))
      ensures TotalsOf(accounts) == ResetTotals(old(TotalsOf(accounts)), maxUnreadEmails)
      ensures PastsOf(accounts) == old(PastsOf(accounts))
    {
      message := CreateMessage();
      ResetCounters();
    }

    /** One iteration of the account loop of `main`. */
    method ScanAccount(account: Account, listing: seq<Envelope>)
      modifies this, account
      ensures account.pastEmails == Ids(listing)
      ensures account.unreadTotal == NewCount(old(account.pastEmails), listing)
      ensures from == Tally(old(from), listing)
    {
      var count, ids := GetUnreadMail(listing, account.pastEmails);
      account.unreadTotal, account.pastEmails := count, ids;
    }

    /** The account loop of `main`: scans every account in order,
        overwriting its unread total with this run's new count and its stored
        ids with the current unread ids. `listings[i]` is what the mailbox of
        `accounts[i]` lists as unread. */
    method ScanAccounts(listings: seq<seq<Envelope>>)
      requires Valid()
      requires |listings| == |accounts|
      modifies this, accounts
      ensures from == Tally(old(from), Flatten(listings))
      ensures PastsOf(accounts) == IdsOf(listings)
      ensures TotalsOf(accounts) == NewCounts(old(PastsOf(accounts)), listings)
    {
      ghost var pasts, start := PastsOf(accounts), from;
      var i := 0;
      while i < |accounts|
        invariant 0 <= i <= |accounts|
        invariant from == Tally(start, Flatten(listings[..i]))
        invariant forall j :: 0 <= j < i ==>
          accounts[j].pastEmails == Ids(listings[j]) && accounts[j].unreadTotal == NewCount(pasts[j], listings[j])
        invariant forall j :: i <= j < |accounts| ==> accounts[j].pastEmails == pasts[j]
      {
        ghost var before := from;
        ScanAccount(accounts[i], listings[i]);
        TallyNext(start, listings, i, before, from);
        i := i + 1;
      }
      assert listings[..i] == listings;
      assert PastsOf(accounts) == IdsOf(listings) by {
        var now, want := PastsOf(accounts), IdsOf(listings);
        assert forall j :: 0 <= j < |accounts| ==> now[j] == want[j];
      }
      assert TotalsOf(accounts) == NewCounts(pasts, listings) by {
        var now, want := TotalsOf(accounts), NewCounts(pasts, listings);
        assert forall j :: 0 <= j < |accounts| ==> now[j] == want[j];
      }
    }

    /** `main`: scans every account, then notifies, and resets, only when the
        decision says so. The account file is not written back here. */
    method Run(listings: seq<seq<Envelope>>) returns (notified: bool, message: string)
      requires Valid()
      requires |listings| == |accounts|
      modifies this, accounts
      ensures from == Tally(old(from), Flatten(listings))
      ensures PastsOf(accounts) == IdsOf(listings)
      ensures notified == Decide(from, importantContacts, NewCounts(old(PastsOf(accounts)), listings), maxUnreadEmails)
      ensures notified ==> message == Compose(
        Summaries(LabelsOf(accounts), NewCounts(old(PastsOf(accounts)), listings)),
        ImportantSum(from, importantContacts))
      ensures !notified ==> message == ""
      ensures TotalsOf(accounts) ==
        var scanned := NewCounts(old(PastsOf(accounts)), listings);
        if notified then ResetTotals(scanned, maxUnreadEmails) else scanned
    {
      ghost var pasts := PastsOf(accounts);
      ScanAccounts(listings);
      ghost var scanned := NewCounts(pasts, listings);
      assert TotalsOf(accounts) == scanned;
      notified := ShouldSendText();
      assert notified == Decide(from, importantContacts, scanned, maxUnreadEmails);
      if notified {
        message := SendText();
        assert TotalsOf(accounts) == ResetTotals(scanned, maxUnreadEmails);
      } else {
        message := "";
      }
    }
  }

  /** The sender table after the first `i + 1` accounts' scans. */
  lemma TallyNext(start: Table, listings: seq<seq<Envelope>>, i: nat, before: Table, after: Table)
    requires i < |listings|
    requires before == Tally(start, Flatten(listings[..i]))
    requires after == Tally(before, listings[i])
    ensures after == Tally(start, Flatten(listings[..i + 1]))
  {
    TallyAppend(start, Flatten(listings[..i]), listings[i]);
    assert listings[..i + 1][..i] == listings[..i];
  }

  /** From an empty sender table, the decision after the scan is true exactly
      when some scanned message came from an important contact or some
      account's new count is above the ceiling. */
  lemma RunDecision(listing: seq<Envelope>, contacts: seq<string>, totals: seq<nat>, max: int)
    ensures Decide(Tally(map[], listing), contacts, totals, max) <==>
      (exists i :: 0 <= i < |listing| && SenderKey(listing[i]) in contacts) ||
      (exists i :: 0 <= i < |totals| && totals[i] > max)
  {
    TallyCounts(map[], listing);
    var t := Tally(map[], listing);
    if exists i :: 0 <= i < |listing| && SenderKey(listing[i]) in contacts {
      var i :| 0 <= i < |listing| && SenderKey(listing[i]) in contacts;
      assert SenderKey(listing[i]) in t;
    }
    if exists k :: k in t && k in contacts {
      var k :| k in t && k in contacts;
      var e :| e in listing && SenderKey(e) == k;
      var i :| 0 <= i < |listing| && listing[i] == e;
      assert SenderKey(listing[i]) in contacts;
    }
  }

  /** From an empty sender table, the important count in the message is the
      number of scanned messages from important contacts. */
  lemma RunImportantCount(listing: seq<Envelope>, contacts: seq<string>)
    ensures ImportantSum(Tally(map[], listing), contacts) == FromContacts(listing, contacts)
  {
    TallyImportant(map[], contacts, listing);
    assert ImportantAmong({}, contacts) == {};
  }
}
