/** The name filter of `fetch_subreddits`: from the response's subreddit entries to the names it returns. */
module EntryFilter {
  import opened Wrappers

  /** One element of the response's `subreddits` array. An absent (or null) key is `None`. */
  datatype Entry = Entry(
    displayName: Option<string>,
    isNsfw: Option<bool>,
    internalIsNsfw: Option<bool>,
    suggestedInternalIsNsfw: Option<bool>)

  /** The decoded response body; `subreddits` is `None` when the object has no such key. */
  datatype Payload = Payload(subreddits: Option<seq<Entry>>)

  /**
   * Which loop body to model. The loop's comment says an entry is skipped when any NSFW flag
   * is true, and a named entry is otherwise kept (`Intended`). The text puts `nsfw = "true"`
   * inside the flag test, which Python does not parse; `AsWritten` is the loop with that
   * assignment removed. Every entry that gets past the test then still has `nsfw == ""`, and
   * the append under `if nsfw:` never happens. (Read as a walrus, the assignment makes the test
   * true for every entry, which skips them all: nothing is appended either way.)
   */
  datatype Reading = Intended | AsWritten

  /** A flag counts when it is present and true. */
  predicate Truthy(flag: Option<bool>) {
    flag == Some(true)
  }

  /** Any of the three NSFW indicators is set. */
  predicate Flagged(e: Entry) {
    Truthy(e.isNsfw) || Truthy(e.internalIsNsfw) || Truthy(e.suggestedInternalIsNsfw)
  }

  /** `sub.get("displayName", "")`. */
  function Name(e: Entry): string {
    e.displayName.GetOr("")
  }

  /** `data.get("subreddits", [])`. */
  function Entries(p: Payload): seq<Entry> {
    p.subreddits.GetOr([])
  }

  /** What one iteration of the loop appends for entry `e`. */
  function Appended(e: Entry, reading: Reading): (r: seq<string>)
    ensures Flagged(e) ==> r == []
    ensures r == [] || (r == [Name(e)] && Name(e) != "" && !Flagged(e))
  {
    if Flagged(e) then []
    else if Name(e) == "" then []
    else match reading
      case Intended => [Name(e)]
      case AsWritten =>
        // The marker still holds the value it was initialised with before the flag test.
        var nsfw := "";
        if nsfw != "" then [Name(e)] else []
  }

  /** The names the loop collects from `entries`, in entry order. */
  function ExtractNames(entries: seq<Entry>, reading: Reading): (r: seq<string>)
    ensures |r| <= |entries|
    ensures forall n :: n in r ==> n != "" && exists e :: e in entries && !Flagged(e) && Name(e) == n
    ensures reading == Intended ==>
      forall e :: e in entries && !Flagged(e) && Name(e) != "" ==> Name(e) in r
    ensures reading == AsWritten ==> r == []
  {
    if entries == [] then []
    else Appended(entries[0], reading) + ExtractNames(entries[1..], reading)
  }

  /**
   * The loop as written drops an ordinary, unflagged, named entry that the loop's own comment
   * says to keep.
   */
  lemma AsWrittenDropsUnflaggedEntry()
    ensures var e := Entry(Some("pics"), None, Some(false), None);
      && ExtractNames([e], AsWritten) == []
      && ExtractNames([e], Intended) == ["pics"]
  {
    var e := Entry(Some("pics"), None, Some(false), None);
    assert [e][1..] == [];
  }
}
