/** The booking-history ledger: a most-recent-first list of finished
    bookings kept as one JSON document under `HISTORY_KEY`. */
module Storage {
  import opened Wrappers
  import opened KeyValue

  /** The terminal outcome a ledger entry records. */
  datatype Outcome = Confirmed | Failed

  /** `BookingRecord`; `timestamp` is an opaque instant. */
  datatype BookingRecord = BookingRecord(
    requestId: string,
    numSeats: int,
    status: Outcome,
    allocatedSeats: Option<seq<string>>,
    message: Option<string>,
    timestamp: int,
    queuePosition: Option<int>)

  const HISTORY_KEY: string := "booking_history"
  const MAX_HISTORY_ITEMS: nat := 50

  type HistoryEntries = Entries<seq<BookingRecord>>

  /** `getHistory`: the stored list, failing open to the empty list when the
      key is missing, blank or does not parse. */
  function GetHistory(entries: HistoryEntries): (h: seq<BookingRecord>)
    ensures HISTORY_KEY !in entries ==> h == []
    ensures HISTORY_KEY in entries && entries[HISTORY_KEY].Unparsable? ==> h == []
    ensures HISTORY_KEY in entries && entries[HISTORY_KEY].Json? ==> h == entries[HISTORY_KEY].doc
  {
    match ReadJson(entries, HISTORY_KEY)
    case Some(h) => h
    case None => []
  }

  /** `slice(0, MAX_HISTORY_ITEMS)`: the first (most recent) entries, at most 50. */
  function Trim(h: seq<BookingRecord>): (t: seq<BookingRecord>)
    ensures |t| == Min(|h|, MAX_HISTORY_ITEMS)
    ensures t == h[..|t|]
  {
    h[..Min(|h|, MAX_HISTORY_ITEMS)]
  }

  /** The store after `saveBooking(record)`. */
  function Saved(entries: HistoryEntries, record: BookingRecord): HistoryEntries
  {
    entries[HISTORY_KEY := Stringify(Trim([record] + GetHistory(entries)))]
  }

  /** The store after `clearHistory()`. */
  function Cleared(entries: HistoryEntries): HistoryEntries
  {
    entries - {HISTORY_KEY}
  }

  /** `saveBooking`: read the list, put the record at the front (`unshift`),
      keep the first 50 and write the list back. */
  method SaveBooking(store: LocalStore<seq<BookingRecord>>, record: BookingRecord)
    modifies store
    ensures store.entries == Saved(old(store.entries), record)
    ensures GetHistory(store.entries) == Trim([record] + GetHistory(old(store.entries)))
  {
    var history := GetHistory(store.entries);
    history := [record] + history;
    var trimmed := history[..Min(|history|, MAX_HISTORY_ITEMS)];
    store.SetItem(HISTORY_KEY, Stringify(trimmed));
  }

  /** `clearHistory`: removes the history key and nothing else. */
  method ClearHistory(store: LocalStore<seq<BookingRecord>>)
    modifies store
    ensures store.entries == Cleared(old(store.entries))
    ensures GetHistory(store.entries) == []
  {
    store.RemoveItem(HISTORY_KEY);
  }

  /** `getBookingCount`. */
  function GetBookingCount(entries: HistoryEntries): (n: nat)
    ensures n == 0 <==> GetHistory(entries) == []
    ensures n == |GetHistory(entries)|
  {
    |GetHistory(entries)|
  }

  /** The length of `history.filter(b => b.status === 'confirmed')`. */
  function CountConfirmed(h: seq<BookingRecord>): (c: nat)
    ensures c <= |h|
    ensures c == |h| <==> forall i :: 0 <= i < |h| ==> h[i].status == Confirmed
    ensures c == 0 <==> forall i :: 0 <= i < |h| ==> h[i].status == Failed
  {
    if h == [] then 0
    else (if h[0].status == Confirmed then 1 else 0) + CountConfirmed(h[1..])
  }

  /** `Math.round((confirmed / total) * 100)` with 0 for an empty list,
      computed exactly: half-up rounding of 100 * confirmed / total. */
  function SuccessRate(confirmed: nat, total: nat): (r: nat)
    requires confirmed <= total
    ensures total == 0 ==> r == 0
    ensures r <= 100
    ensures total > 0 ==> 2 * total * r <= 200 * confirmed + total < 2 * total * (r + 1)
  {
    if total == 0 then 0
    else
      var q := (200 * confirmed + total) / (2 * total);
      RoundedHalfUp(200 * confirmed + total, 2 * total, q);
      q
  }

  /** The quotient of n by d bounds n between d * q and d * (q + 1), and is
      at most 100 while n stays below 101 * d. */
  lemma RoundedHalfUp(n: nat, d: nat, q: nat)
    requires d > 0 && q == n / d && n < 101 * d
    ensures d * q <= n < d * (q + 1)
    ensures q <= 100
  {
    assert n == d * q + n % d;
    assert d * (q + 1) == d * q + d;
  }

  /** `getSuccessRate`: a rounded integer percentage in 0..100. */
  function GetSuccessRate(entries: HistoryEntries): (r: nat)
    ensures r <= 100
    ensures GetHistory(entries) == [] ==> r == 0
    ensures var h := GetHistory(entries);
            h != [] ==> 2 * |h| * r <= 200 * CountConfirmed(h) + |h| < 2 * |h| * (r + 1)
  {
    var history := GetHistory(entries);
    SuccessRate(CountConfirmed(history), |history|)
  }

  /** The count over two lists joined is the sum of their counts; with the
      one-element case of `CountConfirmed`'s contract this fixes the count
      as the number of confirmed entries. */
  lemma {:induction false} CountConfirmedConcat(a: seq<BookingRecord>, b: seq<BookingRecord>)
    ensures CountConfirmed(a + b) == CountConfirmed(a) + CountConfirmed(b)
  {
    if a == [] {
      assert a + b == b;
    } else {
      assert (a + b)[0] == a[0];
      assert (a + b)[1..] == a[1..] + b;
      CountConfirmedConcat(a[1..], b);
    }
  }

  /** Reversed(s): the elements of `s` last first. */
  function Reversed(s: seq<BookingRecord>): (r: seq<BookingRecord>)
    ensures |r| == |s|
    ensures forall i :: 0 <= i < |s| ==> r[i] == s[|s| - 1 - i]
  {
    if s == [] then [] else Reversed(s[1..]) + [s[0]]
  }

  /** The store after `saveBooking` is called on each of `records` in turn. */
  function SavedAll(entries: HistoryEntries, records: seq<BookingRecord>): HistoryEntries
    decreases |records|
  {
    if records == [] then entries else SavedAll(Saved(entries, records[0]), records[1..])
  }

  // ----- Properties of the ledger -----

  /** After a save the new record is the first entry, whatever was stored. */
  lemma SaveBookingPutsRecordFirst(entries: HistoryEntries, record: BookingRecord)
    ensures |GetHistory(Saved(entries, record))| >= 1
    ensures GetHistory(Saved(entries, record))[0] == record
  {
  }

  /** After a save the length is min(old + 1, 50): never more than 50. */
  lemma SaveBookingLength(entries: HistoryEntries, record: BookingRecord)
    ensures |GetHistory(Saved(entries, record))| == Min(|GetHistory(entries)| + 1, MAX_HISTORY_ITEMS)
    ensures |GetHistory(Saved(entries, record))| <= MAX_HISTORY_ITEMS
  {
  }

  /** After a save the older entries follow the new one unchanged and in
      order, less whatever falls past the 50th place. */
  lemma SaveBookingShifts(entries: HistoryEntries, record: BookingRecord)
    ensures var old_ := GetHistory(entries);
            GetHistory(Saved(entries, record))[1..] == old_[..Min(|old_|, MAX_HISTORY_ITEMS - 1)]
  {
  }

  /** A save over a missing, blank or unparsable entry yields exactly [record]. */
  lemma SaveBookingOverCorrupt(entries: HistoryEntries, record: BookingRecord)
    requires HISTORY_KEY !in entries || entries[HISTORY_KEY].Unparsable?
    ensures GetHistory(Saved(entries, record)) == [record]
  {
  }

  /** Save and clear touch `HISTORY_KEY` and no other key. */
  lemma SaveAndClearTouchOnlyHistoryKey(entries: HistoryEntries, record: BookingRecord, key: string)
    requires key != HISTORY_KEY
    ensures key in Saved(entries, record) <==> key in entries
    ensures key in Cleared(entries) <==> key in entries
    ensures key in entries ==> Saved(entries, record)[key] == entries[key] && Cleared(entries)[key] == entries[key]
  {
  }

  /** After a clear the history reads as empty, and so do its count and rate. */
  lemma ClearEmptiesHistory(entries: HistoryEntries)
    ensures GetHistory(Cleared(entries)) == []
    ensures GetBookingCount(Cleared(entries)) == 0
    ensures GetSuccessRate(Cleared(entries)) == 0
  {
  }

  /** The ledger applies no deduplication: saving one record twice gives two entries. */
  lemma SaveTwiceKeepsBoth(entries: HistoryEntries, record: BookingRecord)
    ensures var h := GetHistory(Saved(Saved(entries, record), record));
            |h| >= 2 && h[0] == record && h[1] == record
  {
    SaveBookingPutsRecordFirst(entries, record);
    SaveBookingShifts(Saved(entries, record), record);
  }

  /** Taking the first 50 of a longer list that already starts with the
      first 50 of its tail changes nothing. */
  lemma TrimAbsorbs(front: seq<BookingRecord>, back: seq<BookingRecord>)
    ensures Trim(front + Trim(back)) == Trim(front + back)
  {
    var n := Min(|front + back|, MAX_HISTORY_ITEMS);
    assert |front + Trim(back)| >= n;
    forall i | 0 <= i < n
      ensures (front + Trim(back))[i] == (front + back)[i]
    {
      if i >= |front| {
        assert i - |front| < |Trim(back)|;
      }
    }
  }

  /** A run of saves leaves the records newest first in front of the old
      history, cut to the 50 most recent. */
  lemma {:induction false} SavedAllKeepsMostRecent(entries: HistoryEntries, records: seq<BookingRecord>)
    requires records != []
    ensures GetHistory(SavedAll(entries, records)) == Trim(Reversed(records) + GetHistory(entries))
    decreases |records|
  {
    var first := records[0];
    var rest := records[1..];
    var next := Saved(entries, first);
    assert GetHistory(next) == Trim([first] + GetHistory(entries));
    assert Reversed(records) == Reversed(rest) + [first];
    if rest == [] {
      assert SavedAll(entries, records) == SavedAll(next, rest) == next;
      assert Reversed(records) == [first];
    } else {
      SavedAllKeepsMostRecent(next, rest);
      calc {
        GetHistory(SavedAll(entries, records));
        GetHistory(SavedAll(next, rest));
        Trim(Reversed(rest) + Trim([first] + GetHistory(entries)));
        { TrimAbsorbs(Reversed(rest), [first] + GetHistory(entries)); }
        Trim(Reversed(rest) + ([first] + GetHistory(entries)));
        { assert Reversed(rest) + ([first] + GetHistory(entries)) == (Reversed(rest) + [first]) + GetHistory(entries); }
        Trim(Reversed(records) + GetHistory(entries));
      }
    }
  }

  /** Fifty-one saves from an empty store leave exactly the 50 most recent
      records, newest first. */
  lemma FiftyOneSavesKeepFifty(records: seq<BookingRecord>)
    requires |records| == 51
    ensures var h := GetHistory(SavedAll(map[], records));
            |h| == 50 && forall i :: 0 <= i < 50 ==> h[i] == records[50 - i]
  {
    SavedAllKeepsMostRecent(map[], records);
    assert GetHistory(map[]) == [];
    assert Reversed(records) + [] == Reversed(records);
  }

  /** The count is the length of what `getHistory` returns, and a save
      moves it to min(old + 1, 50). */
  lemma BookingCountAfterSave(entries: HistoryEntries, record: BookingRecord)
    ensures GetBookingCount(Saved(entries, record)) == Min(GetBookingCount(entries) + 1, MAX_HISTORY_ITEMS)
  {
    SaveBookingLength(entries, record);
  }

  /** Three confirmed bookings and one failed one give a rate of 75. */
  lemma SuccessRateThreeOfFour(a: BookingRecord, b: BookingRecord, c: BookingRecord, d: BookingRecord)
    requires a.status == Confirmed && b.status == Confirmed && c.status == Confirmed
    requires d.status == Failed
    ensures GetSuccessRate(map[HISTORY_KEY := Stringify([a, b, c, d])]) == 75
  {
    var h := [a, b, c, d];
    assert GetHistory(map[HISTORY_KEY := Stringify(h)]) == h;
    assert CountConfirmed([d]) == 0 by { assert [d][1..] == []; }
    assert CountConfirmed([c, d]) == 1 by { assert [c, d][1..] == [d]; }
    assert CountConfirmed([b, c, d]) == 2 by { assert [b, c, d][1..] == [c, d]; }
    assert CountConfirmed(h) == 3 by { assert h[1..] == [b, c, d]; }
  }
}
