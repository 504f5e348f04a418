/** The pure part of the mail client: dropping automated and spam-tagged
    messages, and ordering the rest newest first. */
module Mailbox {

  /** The fields of a Graph message that the client looks at. `received`
      stands for `receivedDateTime`: the service writes every timestamp in
      one ISO-8601 format, whose text order is the order of the instants. */
  datatype Email = Email(sender: string, subject: string, received: int, preview: string)

  /** ASCII lower-casing of one character. */
  function LowerChar(c: char): (d: char)
    ensures !('A' <= d <= 'Z')
    ensures d != c ==> 'A' <= c <= 'Z'
    ensures 'A' <= c <= 'Z' ==> d as int - c as int == 'a' as int - 'A' as int
  {
    if 'A' <= c <= 'Z' then (c as int + 32) as char else c
  }

  /** ASCII lower-casing: every capital becomes its small letter, and no
      other character changes. */
  function Lower(s: string): (t: string)
    ensures |t| == |s|
    ensures forall i :: 0 <= i < |t| ==> !('A' <= t[i] <= 'Z')
    ensures forall i :: 0 <= i < |s| && !('A' <= s[i] <= 'Z') ==> t[i] == s[i]
    ensures forall i :: 0 <= i < |s| && 'A' <= s[i] <= 'Z' ==>
      t[i] as int - s[i] as int == 'a' as int - 'A' as int
  {
    seq(|s|, i requires 0 <= i < |s| => LowerChar(s[i]))
  }

  /** Lower-casing an already lower-cased address changes nothing. */
  lemma LowerIdempotent(s: string)
    ensures Lower(Lower(s)) == Lower(s)
  {
    var t := Lower(s);
    assert forall i :: 0 <= i < |t| ==> Lower(t)[i] == t[i];
  }

  /** A sender the mailbox treats as automated: the lower-cased address
      starts with `postmaster` or `noreply`. */
  predicate AutomatedSender(e: Email)
  {
    var a := Lower(e.sender);
    "postmaster" <= a || "noreply" <= a
  }

  /** A subject tagged by the mail gateway; the test is case-sensitive. */
  predicate BulkTagged(e: Email)
  {
    "[!!Spam]" <= e.subject || "[!!Massmail]" <= e.subject
  }

  /** The condition of the list comprehension. */
  predicate Keep(e: Email)
  {
    !AutomatedSender(e) && !BulkTagged(e)
  }

  /** The messages that pass `Keep`, in their original order. */
  function Filtered(s: seq<Email>): seq<Email>
  {
    if s == [] then []
    else if Keep(s[0]) then [s[0]] + Filtered(s[1..])
    else Filtered(s[1..])
  }

  /** Every message is kept exactly as often as it occurs when it passes
      `Keep`, and never when it does not. */
  lemma {:induction false} FilteredCounts(s: seq<Email>, e: Email)
    ensures multiset(Filtered(s))[e] == if Keep(e) then multiset(s)[e] else 0
  {
    if s != [] {
      FilteredCounts(s[1..], e);
      assert s == [s[0]] + s[1..];
    }
  }

  /** The filter keeps a message if and only if it occurs and passes `Keep`. */
  lemma FilteredMembers(s: seq<Email>, e: Email)
    ensures e in Filtered(s) <==> e in s && Keep(e)
  {
    FilteredCounts(s, e);
    assert e in Filtered(s) <==> multiset(Filtered(s))[e] > 0;
    assert e in s <==> multiset(s)[e] > 0;
  }

  /** The filter works message by message, so it keeps the original order:
      filtering a concatenation is concatenating the filtered parts (for
      example, page by page). */
  lemma {:induction false} FilteredAppend(a: seq<Email>, b: seq<Email>)
    ensures Filtered(a + b) == Filtered(a) + Filtered(b)
  {
    if a == [] {
      assert a + b == b;
    } else {
      assert (a + b)[0] == a[0] && (a + b)[1..] == a[1..] + b;
      FilteredAppend(a[1..], b);
      if Keep(a[0]) {
        assert Filtered(a + b) == [a[0]] + Filtered(a[1..] + b);
      } else {
        assert Filtered(a + b) == Filtered(a[1..] + b);
      }
    }
  }

  /** Newest first: received times never increase along the list. */
  ghost predicate NewestFirst(s: seq<Email>)
  {
    forall i, j :: 0 <= i < j < |s| ==> s[i].received >= s[j].received
  }

  /** Places `x` before the first message that is not newer than it, so that
      among equal times the earlier input stays first (Python's sort is
      stable, also with `reverse=True`). */
  function Insert(x: Email, t: seq<Email>): seq<Email>
  {
    if t == [] || t[0].received <= x.received then [x] + t
    else [t[0]] + Insert(x, t[1..])
  }

  /** `filtered_emails.sort(key=receivedDateTime, reverse=True)`. */
  function SortNewestFirst(s: seq<Email>): seq<Email>
  {
    if s == [] then [] else Insert(s[0], SortNewestFirst(s[1..]))
  }

  lemma {:induction false} InsertCounts(x: Email, t: seq<Email>)
    ensures multiset(Insert(x, t)) == multiset(t) + multiset{x}
  {
    if t != [] && t[0].received > x.received {
      InsertCounts(x, t[1..]);
      assert t == [t[0]] + t[1..];
    }
  }

  lemma {:induction false} InsertSorted(x: Email, t: seq<Email>)
    requires NewestFirst(t)
    ensures NewestFirst(Insert(x, t))
  {
    if t != [] && t[0].received > x.received {
      InsertSorted(x, t[1..]);
      var r := Insert(x, t[1..]);
      forall k | 0 <= k < |r| ensures r[k].received <= t[0].received {
        InsertCounts(x, t[1..]);
        assert r[k] in multiset(r);
        if r[k] != x {
          assert r[k] in t[1..];
        }
      }
    }
  }

  /** The sort returns a permutation of its input, newest first. */
  lemma {:induction false} SortSpec(s: seq<Email>)
    ensures NewestFirst(SortNewestFirst(s))
    ensures multiset(SortNewestFirst(s)) == multiset(s)
  {
    if s != [] {
      SortSpec(s[1..]);
      InsertSorted(s[0], SortNewestFirst(s[1..]));
      InsertCounts(s[0], SortNewestFirst(s[1..]));
      assert s == [s[0]] + s[1..];
    }
  }

  /** The messages received at time `t`, in their order in `s`. */
  function ReceivedAt(s: seq<Email>, t: int): seq<Email>
  {
    if s == [] then []
    else if s[0].received == t then [s[0]] + ReceivedAt(s[1..], t)
    else ReceivedAt(s[1..], t)
  }

  lemma {:induction false} InsertReceivedAt(x: Email, r: seq<Email>, t: int)
    ensures ReceivedAt(Insert(x, r), t)
      == (if x.received == t then [x] else []) + ReceivedAt(r, t)
  {
    if r != [] && r[0].received > x.received {
      InsertReceivedAt(x, r[1..], t);
      var i := Insert(x, r);
      assert i[0] == r[0] && i[1..] == Insert(x, r[1..]);
    } else {
      var i := Insert(x, r);
      assert i[0] == x && i[1..] == r;
    }
  }

  /** The sort is stable: messages received at the same time keep the order
      they had in the input. */
  lemma {:induction false} SortStable(s: seq<Email>, t: int)
    ensures ReceivedAt(SortNewestFirst(s), t) == ReceivedAt(s, t)
  {
    if s != [] {
      SortStable(s[1..], t);
      InsertReceivedAt(s[0], SortNewestFirst(s[1..]), t);
    }
  }

  /** What `obtener_correos` returns for the messages it extracted: nothing
      when there are none, otherwise the kept messages newest first. */
  function Inbox(emails: seq<Email>): seq<Email>
  {
    if emails == [] then [] else SortNewestFirst(Filtered(emails))
  }

  /** The inbox is ordered newest first, holds no automated or spam-tagged
      message, and holds every other message exactly as often as the
      extraction returned it. */
  lemma InboxSpec(emails: seq<Email>)
    ensures NewestFirst(Inbox(emails))
    ensures multiset(Inbox(emails)) == multiset(Filtered(emails))
    ensures forall e :: e in Inbox(emails) ==> Keep(e)
    ensures forall e :: Keep(e) ==> multiset(Inbox(emails))[e] == multiset(emails)[e]
  {
    SortSpec(Filtered(emails));
    forall e ensures multiset(Inbox(emails))[e] == if Keep(e) then multiset(emails)[e] else 0 {
      FilteredCounts(emails, e);
    }
    forall e | e in Inbox(emails) ensures Keep(e) {
      assert multiset(Inbox(emails))[e] > 0;
    }
  }
}
