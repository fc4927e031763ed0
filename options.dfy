/**
 * The memoised option accessor (includes/options.php): the stored options are
 * read on the first call and served from a static variable afterwards.
 */
module OptionsMemo {
  import opened Wrappers

  /** A call returns the whole options array for a null key, otherwise one value. */
  datatype Lookup = Whole(options: map<string, string>) | Value(value: string)

  /** The answer for a key, given the options already loaded. */
  function LookupIn(opts: map<string, string>, key: Option<string>, default: string): (r: Lookup)
    ensures key.None? ==> r == Whole(opts)
    ensures key.Some? && key.value in opts ==> r == Value(opts[key.value])
    ensures key.Some? && key.value !in opts ==> r == Value(default)
  {
    match key
    case None => Whole(opts)
    case Some(k) => if k in opts then Value(opts[k]) else Value(default)
  }

  class Accessor {
    /** The `static $opts`: absent until the first call. */
    var memo: Option<map<string, string>>
    /** How many times the option store has been read. */
    ghost var loads: nat

    constructor ()
      ensures memo == None && loads == 0
    {
      memo := None;
      loads := 0;
    }

    /**
     * `neoncrm_calendar_get_option($key, $default)`; `stored` is what
     * `get_option` would return now, and is read only when nothing is memoised.
     */
    method Get(key: Option<string>, default: string, stored: map<string, string>) returns (r: Lookup)
      modifies this
      ensures old(memo).None? ==> memo == Some(stored) && loads == old(loads) + 1
      ensures old(memo).Some? ==> memo == old(memo) && loads == old(loads)
      ensures r == LookupIn(memo.value, key, default)
    {
      if memo.None? {
        memo := Some(stored);
        loads := loads + 1;
      }
      r := LookupIn(memo.value, key, default);
    }
  }

  /** Later calls keep answering from the first snapshot, even after the stored options change. */
  method FirstSnapshotWins(first: map<string, string>, changed: map<string, string>, key: string)
    returns (before: Lookup, after: Lookup)
    ensures before == after == LookupIn(first, Some(key), "")
  {
    var accessor := new Accessor();
    before := accessor.Get(Some(key), "", first);
    after := accessor.Get(Some(key), "", changed);
    assert accessor.loads == 1;
  }
}
