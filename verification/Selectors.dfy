/** Label and field selectors: printed from a map in whatever order it is ranged over. */
module Selectors {
  type Filter = map<string, string>

  function Pair(key: string, value: string): string {
    key + "=" + value
  }

  /** The items with a comma between each two. */
  function Joined(items: seq<string>): string {
    if items == [] then ""
    else if |items| == 1 then items[0]
    else Joined(items[..|items| - 1]) + "," + items[|items| - 1]
  }

  function Items(order: seq<string>, filter: Filter): seq<string>
    requires forall k <- order :: k in filter
  {
    seq(|order|, i requires 0 <= i < |order| => Pair(order[i], filter[order[i]]))
  }

  /** `order` is one of the orders in which the map can be ranged over. */
  ghost predicate Lists(order: seq<string>, filter: Filter) {
    && (forall k :: k in order <==> k in filter)
    && forall i, j :: 0 <= i < j < |order| ==> order[i] != order[j]
  }

  // ---------------------------------------------------------------------------
  // Reading a selector back
  // ---------------------------------------------------------------------------

  /** The pieces between commas. */
  function Split(s: string): (pieces: seq<string>)
    ensures pieces != []
  {
    if s == "" then [""] else
      var rest := Split(s[1..]);
      if s[0] == ',' then [""] + rest else [[s[0]] + rest[0]] + rest[1..]
  }

  /** Key and value of an item, parted at its first '='. */
  function ParsePair(item: string): (string, string) {
    if item == "" then ("", "")
    else if item[0] == '=' then ("", item[1..])
    else
      var (key, value) := ParsePair(item[1..]);
      ([item[0]] + key, value)
  }

  function Collect(items: seq<string>): Filter {
    if items == [] then map[] else
      var (key, value) := ParsePair(items[|items| - 1]);
      Collect(items[..|items| - 1])[key := value]
  }

  function ParseSelector(s: string): Filter {
    if s == "" then map[] else Collect(Split(s))
  }

  /** No key holds a comma or an equals sign, and no value a comma. */
  predicate Clean(filter: Filter) {
    forall k <- filter :: ',' !in k && '=' !in k && ',' !in filter[k]
  }

  lemma {:induction false} SplitPlain(s: string)
    requires ',' !in s
    ensures Split(s) == [s]
    decreases |s|
  {
    if s != "" {
      SplitPlain(s[1..]);
      assert s == [s[0]] + s[1..];
    }
  }

  lemma {:induction false} SplitAppend(a: string, b: string)
    requires ',' !in b
    ensures Split(a + [','] + b) == Split(a) + [b]
    decreases |a|
  {
    var s := a + [','] + b;
    if a == "" {
      assert s[1..] == b;
      SplitPlain(b);
    } else {
      assert s[0] == a[0] && s[1..] == a[1..] + [','] + b;
      SplitAppend(a[1..], b);
    }
  }

  lemma {:induction false} SplitJoined(items: seq<string>)
    requires items != [] && forall item <- items :: ',' !in item
    ensures Split(Joined(items)) == items
    decreases |items|
  {
    var n := |items| - 1;
    var init, last := items[..n], items[n];
    assert items == init + [last];
    if n == 0 {
      SplitPlain(last);
    } else {
      SplitJoined(init);
      SplitAppend(Joined(init), last);
    }
  }

  lemma {:induction false} PairReadsBack(key: string, value: string)
    requires '=' !in key
    ensures ParsePair(Pair(key, value)) == (key, value)
    decreases |key|
  {
    var item := Pair(key, value);
    if key == "" {
      assert item[1..] == value;
    } else {
      assert item[0] == key[0] && item[1..] == Pair(key[1..], value);
      PairReadsBack(key[1..], value);
      assert key == [key[0]] + key[1..];
    }
  }

  lemma {:induction false} CollectItems(order: seq<string>, filter: Filter)
    requires (forall k <- order :: k in filter) && Clean(filter)
    ensures Collect(Items(order, filter)) == map k | k in filter && k in order :: filter[k]
    decreases |order|
  {
    if order != [] {
      var n := |order| - 1;
      var last := order[n];
      assert Items(order, filter)[..n] == Items(order[..n], filter);
      CollectItems(order[..n], filter);
      PairReadsBack(last, filter[last]);
      assert order == order[..n] + [last];
    }
  }

  lemma {:induction false} SplitHasNoCommas(s: string)
    ensures forall item <- Split(s) :: ',' !in item
    decreases |s|
  {
    if s != "" {
      SplitHasNoCommas(s[1..]);
    }
  }

  lemma {:induction false} ParsedPairIsClean(item: string)
    requires ',' !in item
    ensures var (key, value) := ParsePair(item); ',' !in key && '=' !in key && ',' !in value
    decreases |item|
  {
    if item != "" {
      ParsedPairIsClean(item[1..]);
    }
  }

  lemma {:induction false} CollectIsClean(items: seq<string>)
    requires forall item <- items :: ',' !in item
    ensures Clean(Collect(items))
    decreases |items|
  {
    if items != [] {
      var n := |items| - 1;
      CollectIsClean(items[..n]);
      ParsedPairIsClean(items[n]);
    }
  }

  lemma JoinedNonEmpty(items: seq<string>)
    requires forall item <- items :: item != ""
    ensures Joined(items) == "" <==> items == []
  {
    if |items| == 1 {
      assert items[0] in items;
    } else if |items| > 1 {
      assert |Joined(items)| >= |","|;
    }
  }

  /**
   In every order the map can be printed in, splitting at commas and then at the first
   '=' gives the filter back exactly when no key or value holds a separator of its own.
   */
  lemma SelectorRoundTripsIff(order: seq<string>, filter: Filter)
    requires Lists(order, filter)
    ensures ParseSelector(Joined(Items(order, filter))) == filter <==> Clean(filter)
  {
    var items := Items(order, filter);
    var s := Joined(items);
    assert forall item <- items :: item != "";
    JoinedNonEmpty(items);
    if s != "" {
      SplitHasNoCommas(s);
      CollectIsClean(Split(s));
    }
    if Clean(filter) {
      CollectItems(order, filter);
      if items == [] {
        assert filter == map[] by {
          assert forall k :: k !in filter;
        }
      } else {
        assert forall item <- items :: ',' !in item;
        SplitJoined(items);
      }
    }
  }

  /** Two orders of the same clean map print to strings that read back alike. */
  lemma OrderDoesNotMatter(a: seq<string>, b: seq<string>, filter: Filter)
    requires Lists(a, filter) && Lists(b, filter) && Clean(filter)
    ensures ParseSelector(Joined(Items(a, filter))) == ParseSelector(Joined(Items(b, filter)))
  {
    SelectorRoundTripsIff(a, filter);
    SelectorRoundTripsIff(b, filter);
  }

  // ---------------------------------------------------------------------------
  // The loops
  // ---------------------------------------------------------------------------

  /** Every printed pair is non-empty, so a comma is due exactly when the selector so far is not empty. */
  lemma AppendPair(order: seq<string>, key: string, filter: Filter)
    requires key in filter && forall k <- order :: k in filter
    ensures forall k <- order + [key] :: k in filter
    ensures var s := Joined(Items(order, filter));
            Joined(Items(order + [key], filter)) == (if s == "" then "" else s + ",") + Pair(key, filter[key])
  {
    var items, last := Items(order, filter), Pair(key, filter[key]);
    assert Items(order + [key], filter) == items + [last];
    assert (items + [last])[..|items|] == items;
    JoinedNonEmpty(items);
    if items == [] {
      assert "" + last == last;
    }
  }

  /** Grows the selector by one pair for each entry, in an order the language does not fix. */
  method BuildSelector(filter: Filter) returns (selector: string, ghost order: seq<string>)
    ensures Lists(order, filter) && selector == Joined(Items(order, filter))
    ensures ParseSelector(selector) == filter <==> Clean(filter)
  {
    selector, order := "", [];
    var unseen := filter.Keys;
    while unseen != {}
      invariant unseen <= filter.Keys
      invariant forall k :: k in order <==> k in filter && k !in unseen
      invariant forall i, j :: 0 <= i < j < |order| ==> order[i] != order[j]
      invariant selector == Joined(Items(order, filter))
      decreases unseen
    {
      var key :| key in unseen;
      var value := filter[key];
      ghost var before := order;
      if selector != "" {
        selector := selector + ",";
      }
      selector := selector + (key + "=" + value);
      unseen := unseen - {key};
      order := order + [key];
      AppendPair(before, key, filter);
    }
    SelectorRoundTripsIff(order, filter);
  }

  lemma EmptyPrints(filter: Filter)
    ensures filter == map[] ==> Prints("", filter)
  {
    if filter == map[] {
      assert Lists([], filter) && Joined(Items([], filter)) == "";
    }
  }

  datatype ListOptions = ListOptions(labelFilter: Filter, fieldFilter: Filter, limit: int, continueToken: string)

  datatype ApiOptions = ApiOptions(limit: int, continueToken: string, labelSelector: string, fieldSelector: string)

  /** The selector lists the pairs of the filter in some order of the map. */
  ghost predicate Prints(selector: string, filter: Filter) {
    exists order :: Lists(order, filter) && selector == Joined(Items(order, filter))
  }

  /** Whatever the map orders, the API is asked for the filters, the positive limit and the token given. */
  method BuildListOptions(opts: ListOptions) returns (listOpts: ApiOptions)
    ensures listOpts.limit == (if opts.limit > 0 then opts.limit else 0) && listOpts.continueToken == opts.continueToken
    ensures Clean(opts.labelFilter) <==> ParseSelector(listOpts.labelSelector) == opts.labelFilter
    ensures Clean(opts.fieldFilter) <==> ParseSelector(listOpts.fieldSelector) == opts.fieldFilter
    ensures Prints(listOpts.labelSelector, opts.labelFilter) && Prints(listOpts.fieldSelector, opts.fieldFilter)
  {
    listOpts := ApiOptions(0, "", "", "");
    EmptyPrints(opts.labelFilter);
    EmptyPrints(opts.fieldFilter);
    if opts.limit > 0 {
      listOpts := listOpts.(limit := opts.limit);
    }
    if opts.continueToken != "" {
      listOpts := listOpts.(continueToken := opts.continueToken);
    }
    if |opts.labelFilter| > 0 {
      var selector, order := BuildSelector(opts.labelFilter);
      listOpts := listOpts.(labelSelector := selector);
    }
    if |opts.fieldFilter| > 0 {
      var selector, order := BuildSelector(opts.fieldFilter);
      listOpts := listOpts.(fieldSelector := selector);
    }
  }
}
