/**
 * The configuration records of the wallpaper agent: a System part holding
 * the refresh interval and a Search part holding the eleven query strings.
 * An empty string means "leave this parameter out of the search request".
 */
module Config {

  /** The refresh interval, as a whole number of seconds. */
  datatype System = System(duration: nat)

  datatype Search = Search(
    query: string,
    categories: string,
    purity: string,
    sorting: string,
    order: string,
    topRange: string,
    atLeast: string,
    resolutions: string,
    ratios: string,
    colors: string,
    apiKey: string)

  datatype Config = Config(system: System, search: Search)

  /** Number of string fields in a Search record. */
  const FieldCount: nat := 11

  /** The Search strings in declaration order (the same order the request uses). */
  function Values(s: Search): (r: seq<string>)
    ensures |r| == FieldCount
    ensures r[0] == s.query && r[1] == s.categories && r[2] == s.purity && r[3] == s.sorting
    ensures r[4] == s.order && r[5] == s.topRange && r[6] == s.atLeast && r[7] == s.resolutions
    ensures r[8] == s.ratios && r[9] == s.colors && r[10] == s.apiKey
  {
    [s.query, s.categories, s.purity, s.sorting, s.order, s.topRange,
     s.atLeast, s.resolutions, s.ratios, s.colors, s.apiKey]
  }

  function DefaultSystem(): System
  {
    System(3600)
  }

  function DefaultSearch(): Search
  {
    Search("+landscape +mountain", "111", "100", "date_added", "desc", "1M",
           "1920x1080", "", "", "", "")
  }

  /** The derived Default: each part takes its own default. */
  function DefaultConfig(): Config
  {
    Config(DefaultSystem(), DefaultSearch())
  }

  /** The default interval is one hour and the default search sets exactly
      its first seven strings, leaving resolutions, ratios, colors and the
      API key empty. */
  lemma DefaultValues()
    ensures DefaultConfig().system.duration == 3600
    ensures DefaultConfig().search == DefaultSearch()
    ensures forall i :: 0 <= i < FieldCount ==>
              (Values(DefaultSearch())[i] == "" <==> 7 <= i)
  {
    var v := Values(DefaultSearch());
    assert v == ["+landscape +mountain", "111", "100", "date_added", "desc", "1M",
                 "1920x1080", "", "", "", ""];
  }

  /** Structural equality of two Search records is equality of their
      eleven strings, taken pairwise. */
  lemma SearchEqualIffValuesEqual(a: Search, b: Search)
    ensures a == b <==> forall i :: 0 <= i < FieldCount ==> Values(a)[i] == Values(b)[i]
  {
    if forall i :: 0 <= i < FieldCount ==> Values(a)[i] == Values(b)[i] {
      assert Values(a)[2] == Values(b)[2] && Values(a)[3] == Values(b)[3];
      assert Values(a)[4] == Values(b)[4] && Values(a)[5] == Values(b)[5];
      assert Values(a)[6] == Values(b)[6] && Values(a)[7] == Values(b)[7];
      assert Values(a)[8] == Values(b)[8] && Values(a)[9] == Values(b)[9];
      assert Values(a)[0] == Values(b)[0] && Values(a)[1] == Values(b)[1];
      assert Values(a)[10] == Values(b)[10];
    }
  }

  /** Two configurations are equal exactly when their durations are equal
      and all eleven search strings are pairwise equal. */
  lemma ConfigEqualIff(a: Config, b: Config)
    ensures a == b <==>
              a.system.duration == b.system.duration &&
              forall i :: 0 <= i < FieldCount ==> Values(a.search)[i] == Values(b.search)[i]
  {
    SearchEqualIffValuesEqual(a.search, b.search);
  }

  /** Configurations that differ in one search string are unequal,
      whatever the other strings and the duration are. */
  lemma DifferInOneFieldUnequal(a: Config, b: Config, k: nat)
    requires k < FieldCount
    requires Values(a.search)[k] != Values(b.search)[k]
    ensures a != b
  {
  }
}
