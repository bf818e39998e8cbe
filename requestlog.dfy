/**
 * The API logger's request history: every finished request is pushed onto a
 * list, and once the list is longer than 100 its oldest entry is shifted off,
 * so the history is always the last 100 requests.
 */
module RequestLog {

  /** How many requests the history keeps. */
  const MaxHistory: nat := 100

  /** How many characters of the User-Agent header an entry keeps before the ellipsis. */
  const UserAgentPrefix: nat := 50

  /** One history entry; the clock reading and the request fields arrive as values. */
  datatype RequestEntry = RequestEntry(
    id: int,
    timestamp: string,
    httpMethod: string,
    url: string,
    statusCode: int,
    executionTimeMs: int,
    ip: string,
    userAgent: string)

  function Min(a: int, b: int): int
  {
    if a <= b then a else b
  }

  /**
   * The stored User-Agent: the header, or "Unknown" when it is missing or
   * empty, cut to its first 50 characters and followed by "...".
   */
  function UserAgentField(header: string): (r: string)
    ensures var ua := if header == "" then "Unknown" else header;
      && |r| == Min(|ua|, UserAgentPrefix) + 3
      && r[|r| - 3..] == "..."
      && r[..|r| - 3] <= ua
  {
    var ua := if header == "" then "Unknown" else header;
    var kept := if |ua| <= UserAgentPrefix then ua else ua[..UserAgentPrefix];
    assert (kept + "...")[..|kept|] == kept;
    kept + "..."
  }

  /** Push an entry, then shift the oldest one off once the history is longer than the limit. */
  function Append(history: seq<RequestEntry>, e: RequestEntry): (h: seq<RequestEntry>)
    ensures |history| <= MaxHistory ==> |h| == Min(|history| + 1, MaxHistory)
    ensures h != [] && h[|h| - 1] == e
    ensures |h| <= |history| + 1 && h == (history + [e])[|history| + 1 - |h|..]
  {
    var pushed := history + [e];
    if |pushed| > MaxHistory then pushed[1..] else pushed
  }

  /** The most recent `MaxHistory` requests of everything ever logged. */
  function Window(all: seq<RequestEntry>): (w: seq<RequestEntry>)
    ensures |w| == Min(|all|, MaxHistory)
    ensures forall i :: 0 <= i < |w| ==> w[i] == all[|all| - |w| + i]
    ensures all != [] ==> w[|w| - 1] == all[|all| - 1]
  {
    if |all| <= MaxHistory then all else all[|all| - MaxHistory..]
  }

  /** Appending to the window of a log gives the window of the longer log. */
  lemma AppendKeepsWindow(all: seq<RequestEntry>, e: RequestEntry)
    ensures Append(Window(all), e) == Window(all + [e])
  {
    if |all| >= MaxHistory {
      var n := |all|;
      assert Window(all) + [e] == all[n - MaxHistory..] + [e];
      assert (all[n - MaxHistory..] + [e])[1..] == (all + [e])[n + 1 - MaxHistory..];
    }
  }

  /** The history after logging the entries one by one, oldest first. */
  function Replay(history: seq<RequestEntry>, entries: seq<RequestEntry>): seq<RequestEntry>
    decreases |entries|
  {
    if entries == [] then history else Replay(Append(history, entries[0]), entries[1..])
  }

  /**
   * Logging any number of further requests keeps the history equal to the
   * last 100 requests of the whole log; in particular it never holds more
   * than 100 entries and always ends with the most recent request.
   */
  lemma {:induction false} ReplayKeepsWindow(all: seq<RequestEntry>, entries: seq<RequestEntry>)
    ensures Replay(Window(all), entries) == Window(all + entries)
    decreases |entries|
  {
    if entries == [] {
      assert all + entries == all;
    } else {
      var e, rest := entries[0], entries[1..];
      calc {
        Replay(Window(all), entries);
        Replay(Append(Window(all), e), rest);
        { AppendKeepsWindow(all, e); }
        Replay(Window(all + [e]), rest);
        { ReplayKeepsWindow(all + [e], rest); }
        Window(all + [e] + rest);
        { assert all + [e] + rest == all + entries; }
        Window(all + entries);
      }
    }
  }

  /** From an empty history, the history is the window of the requests logged. */
  lemma {:induction false} HistoryIsLastHundred(entries: seq<RequestEntry>)
    ensures Replay([], entries) == Window(entries)
    ensures |Replay([], entries)| == Min(|entries|, MaxHistory)
    ensures entries != [] ==> Replay([], entries)[|Replay([], entries)| - 1] == entries[|entries| - 1]
  {
    assert Replay([], entries) == Window(entries) by {
      var empty: seq<RequestEntry> := [];
      assert Window(empty) == empty;
      ReplayKeepsWindow(empty, entries);
      assert empty + entries == entries;
    }
  }

  /** The logger object and its `requestHistory` field. */
  class RequestLogger {
    var requestHistory: seq<RequestEntry>

    ghost predicate Valid()
      reads this
    {
      |requestHistory| <= MaxHistory
    }

    constructor ()
      ensures Valid() && requestHistory == []
    {
      requestHistory := [];
    }

    /**
     * Record one finished request. The new entry's id is the history length
     * before the push plus one, so once the history is full every new entry
     * gets id 101.
     */
    method LogRequest(timestamp: string, httpMethod: string, url: string, statusCode: int,
                      executionTimeMs: int, ip: string, userAgent: string)
      requires Valid()
      modifies this
      ensures Valid()
      ensures var entry := RequestEntry(|old(requestHistory)| + 1, timestamp, httpMethod, url,
                                        statusCode, executionTimeMs, ip, UserAgentField(userAgent));
        requestHistory == Append(old(requestHistory), entry)
      ensures |requestHistory| == Min(|old(requestHistory)| + 1, MaxHistory)
      ensures requestHistory[|requestHistory| - 1].id == |old(requestHistory)| + 1 <= MaxHistory + 1
    {
      var entry := RequestEntry(|requestHistory| + 1, timestamp, httpMethod, url,
                                statusCode, executionTimeMs, ip, UserAgentField(userAgent));
      requestHistory := requestHistory + [entry];
      if |requestHistory| > MaxHistory {
        requestHistory := requestHistory[1..];
      }
    }
  }
}
