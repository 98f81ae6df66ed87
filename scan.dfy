/** The unread scan of one account (`get_unread_mail`), as functions of the
    mailbox's unread listing: how many of the listed messages are new, the
    list of ids that replaces `past_emails`, and what the scan adds to the
    sender table. The IMAP session that produces the listing is not modelled:
    the listing is an input. */
module Scan {
  import opened SenderTable

  /** One message of the unread listing: the id the server reports for it and
      the mailbox and host of the first sender of its envelope. */
  datatype Envelope = Envelope(id: nat, mailbox: string, host: string)

  /** The sender table key of a message, `"#{mailbox}@#{host}"`. */
  function SenderKey(e: Envelope): string {
    e.mailbox + "@" + e.host
  }

  /** The number of listed messages whose id is not among `past`. */
  function NewCount(past: seq<nat>, listing: seq<Envelope>): (r: nat)
    ensures r <= |listing|
    decreases |listing|
  {
    if listing == [] then 0
    else
      var n := |listing| - 1;
      NewCount(past, listing[..n]) + (if listing[n].id in past then 0 else 1)
  }

  /** The ids of the listing, in listing order. */
  function Ids(listing: seq<Envelope>): (r: seq<nat>)
    ensures |r| == |listing|
    ensures forall i :: 0 <= i < |listing| ==> r[i] == listing[i].id
    decreases |listing|
  {
    if listing == [] then [] else Ids(listing[..|listing| - 1]) + [listing[|listing| - 1].id]
  }

  /** The sender table after the scan has counted every listed message. */
  function Tally(t: Table, listing: seq<Envelope>): Table
    decreases |listing|
  {
    if listing == [] then t
    else
      var n := |listing| - 1;
      Bump(Tally(t, listing[..n]), SenderKey(listing[n]))
  }

  /** How many listed messages come from sender `k`. */
  function Occurrences(listing: seq<Envelope>, k: string): nat
    decreases |listing|
  {
    if listing == [] then 0
    else
      var n := |listing| - 1;
      Occurrences(listing[..n], k) + (if SenderKey(listing[n]) == k then 1 else 0)
  }

  /** How many listed messages come from an important contact. */
  function FromContacts(listing: seq<Envelope>, contacts: seq<string>): nat
    decreases |listing|
  {
    if listing == [] then 0
    else
      var n := |listing| - 1;
      FromContacts(listing[..n], contacts) + (if SenderKey(listing[n]) in contacts then 1 else 0)
  }

  /** The sender keys of the listing. */
  function Senders(listing: seq<Envelope>): set<string> {
    set e | e in listing :: SenderKey(e)
  }

  /** The listings of several accounts, one after another. */
  function Flatten(listings: seq<seq<Envelope>>): seq<Envelope>
    decreases |listings|
  {
    if listings == [] then [] else Flatten(listings[..|listings| - 1]) + listings[|listings| - 1]
  }

  /** The new-message count of every account, each against its own stored ids. */
  function NewCounts(pasts: seq<seq<nat>>, listings: seq<seq<Envelope>>): (r: seq<nat>)
    requires |pasts| == |listings|
    ensures |r| == |listings|
    ensures forall i :: 0 <= i < |listings| ==> r[i] == NewCount(pasts[i], listings[i])
  {
    seq(|listings|, i requires 0 <= i < |listings| => NewCount(pasts[i], listings[i]))
  }

  /** The stored ids of every account after its scan. */
  function IdsOf(listings: seq<seq<Envelope>>): (r: seq<seq<nat>>)
    ensures |r| == |listings|
    ensures forall i :: 0 <= i < |listings| ==> r[i] == Ids(listings[i])
  {
    seq(|listings|, i requires 0 <= i < |listings| => Ids(listings[i]))
  }

  /** The positions of the listing that hold a message not seen before. */
  function NewPositions(past: seq<nat>, listing: seq<Envelope>): set<int> {
    set i | 0 <= i < |listing| && listing[i].id !in past
  }

  /** The new-message count is the number of listed messages whose id is not in `past`. */
  lemma {:induction false} NewCountIsNewPositions(past: seq<nat>, listing: seq<Envelope>)
    ensures NewCount(past, listing) == |NewPositions(past, listing)|
    decreases |listing|
  {
    if listing == [] {
      assert NewPositions(past, listing) == {};
    } else {
      var n := |listing| - 1;
      var prefix := listing[..n];
      NewCountIsNewPositions(past, prefix);
      var before := NewPositions(past, prefix);
      if listing[n].id in past {
        assert NewPositions(past, listing) == before;
      } else {
        assert NewPositions(past, listing) == before + {n};
      }
    }
  }

  /** No message is new exactly when every listed id was already known. */
  lemma {:induction false} NewCountZeroIff(past: seq<nat>, listing: seq<Envelope>)
    ensures NewCount(past, listing) == 0 <==> forall i :: 0 <= i < |listing| ==> listing[i].id in past
    decreases |listing|
  {
    if listing != [] {
      var n := |listing| - 1;
      NewCountZeroIff(past, listing[..n]);
      assert forall i :: 0 <= i < n ==> listing[..n][i] == listing[i];
    }
  }

  /** Every message is new exactly when no listed id was known. */
  lemma {:induction false} NewCountAllIff(past: seq<nat>, listing: seq<Envelope>)
    ensures NewCount(past, listing) == |listing| <==> forall i :: 0 <= i < |listing| ==> listing[i].id !in past
    decreases |listing|
  {
    if listing != [] {
      var n := |listing| - 1;
      NewCountAllIff(past, listing[..n]);
      assert forall i :: 0 <= i < n ==> listing[..n][i] == listing[i];
    }
  }

  /** Scanning the same listing again, with the ids the first scan stored, finds nothing new. */
  lemma RescanIsQuiet(listing: seq<Envelope>)
    ensures NewCount(Ids(listing), listing) == 0
  {
    var ids := Ids(listing);
    forall i | 0 <= i < |listing|
      ensures listing[i].id in ids
    {
      assert ids[i] == listing[i].id;
    }
    NewCountZeroIff(ids, listing);
  }

  /** Each listed message adds exactly 1 to its sender's entry, new or not;
      no other entry changes and the only keys added are the listed senders. */
  lemma {:induction false} TallyCounts(t: Table, listing: seq<Envelope>)
    ensures forall k :: Get(Tally(t, listing), k) == Get(t, k) + Occurrences(listing, k)
    ensures Tally(t, listing).Keys == t.Keys + Senders(listing)
    decreases |listing|
  {
    if listing == [] {
      assert Senders(listing) == {};
    } else {
      var n := |listing| - 1;
      TallyCounts(t, listing[..n]);
      BumpFacts(Tally(t, listing[..n]), SenderKey(listing[n]));
      assert listing == listing[..n] + [listing[n]];
      assert Senders(listing) == Senders(listing[..n]) + {SenderKey(listing[n])};
    }
  }

  /** The table's total grows by the length of the listing. */
  lemma {:induction false} TallyTotal(t: Table, listing: seq<Envelope>)
    ensures Total(Tally(t, listing)) == Total(t) + |listing|
    decreases |listing|
  {
    if listing != [] {
      var n := |listing| - 1;
      TallyTotal(t, listing[..n]);
      BumpTotal(Tally(t, listing[..n]), SenderKey(listing[n]));
    }
  }

  /** The important sum grows by the number of listed messages from important contacts. */
  lemma {:induction false} TallyImportant(t: Table, contacts: seq<string>, listing: seq<Envelope>)
    ensures ImportantSum(Tally(t, listing), contacts) == ImportantSum(t, contacts) + FromContacts(listing, contacts)
    decreases |listing|
  {
    if listing != [] {
      var n := |listing| - 1;
      TallyImportant(t, contacts, listing[..n]);
      BumpImportantSum(Tally(t, listing[..n]), contacts, SenderKey(listing[n]));
    }
  }

  /** Scanning one listing after another counts as scanning them joined. */
  lemma {:induction false} TallyAppend(t: Table, a: seq<Envelope>, b: seq<Envelope>)
    ensures Tally(Tally(t, a), b) == Tally(t, a + b)
    decreases |b|
  {
    if b == [] {
      assert a + b == a;
    } else {
      var n := |b| - 1;
      var ab := a + b;
      assert ab[..|ab| - 1] == a + b[..n];
      assert ab[|ab| - 1] == b[n];
      TallyAppend(t, a, b[..n]);
      calc {
        Tally(t, ab);
        Bump(Tally(t, a + b[..n]), SenderKey(b[n]));
        Bump(Tally(Tally(t, a), b[..n]), SenderKey(b[n]));
        Tally(Tally(t, a), b);
      }
    }
  }
}
