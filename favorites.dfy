/**
 * The favorites list of backend/main.py: `set_favorites` (replace, add or
 * remove codes) and the bookkeeping of `batch_add_funds` (per-code results and
 * errors, the counters and the favorites merge).
 *
 * The list lives in the user-state table as a JSON array; the store's
 * `favorites` field stands for it, with the JSON encoding left out.
 */
module Favorites {
  import opened Common

  /**
   * `list(set(s))`: each code once. Python leaves the order of a set
   * unspecified; this keeps first occurrences, and the contracts promise only
   * the set of codes and the absence of duplicates.
   */
  function Dedup(s: seq<string>): (r: seq<string>)
    ensures NoDuplicates(r)
    ensures forall x :: x in r <==> x in s
    ensures |r| <= |s|
  {
    if |s| == 0 then []
    else
      var d := Dedup(s[..|s| - 1]);
      assert forall x :: x in s <==> x in s[..|s| - 1] || x == s[|s| - 1];
      if s[|s| - 1] in d then d else d + [s[|s| - 1]]
  }

  /** `[c for c in existing if c not in codes]`. */
  function RemoveAll(existing: seq<string>, codes: seq<string>): (r: seq<string>)
    ensures forall x :: x in r <==> x in existing && x !in codes
  {
    if |existing| == 0 then []
    else
      var init := RemoveAll(existing[..|existing| - 1], codes);
      var c := existing[|existing| - 1];
      assert forall x :: x in existing <==> x in existing[..|existing| - 1] || x == c;
      if c in codes then init else init + [c]
  }

  /** r is s with some elements left out, the rest in their order. */
  predicate SubsequenceOf(r: seq<string>, s: seq<string>) {
    if |r| == 0 then true
    else if |s| == 0 then false
    else if r[|r| - 1] == s[|s| - 1] then SubsequenceOf(r[..|r| - 1], s[..|s| - 1])
    else SubsequenceOf(r, s[..|s| - 1])
  }

  /** Removing keeps the remaining codes in their original order. */
  lemma {:induction false} RemoveAllKeepsOrder(existing: seq<string>, codes: seq<string>)
    ensures SubsequenceOf(RemoveAll(existing, codes), existing)
  {
    if |existing| > 0 {
      var init := existing[..|existing| - 1];
      var c := existing[|existing| - 1];
      RemoveAllKeepsOrder(init, codes);
      var r := RemoveAll(existing, codes);
      if c in codes {
        assert r == RemoveAll(init, codes) && c !in r;
      } else {
        assert r == RemoveAll(init, codes) + [c];
        assert r[..|r| - 1] == RemoveAll(init, codes);
      }
    }
  }

  /** A code that is not removed keeps its multiplicity: duplicates survive removal. */
  lemma {:induction false} RemoveAllKeepsCount(existing: seq<string>, codes: seq<string>, x: string)
    requires x !in codes
    ensures multiset(RemoveAll(existing, codes))[x] == multiset(existing)[x]
  {
    if |existing| > 0 {
      var init := existing[..|existing| - 1];
      var c := existing[|existing| - 1];
      RemoveAllKeepsCount(init, codes, x);
      assert existing == init + [c];
      if c !in codes {
        assert RemoveAll(existing, codes) == RemoveAll(init, codes) + [c];
      }
    }
  }

  /**
   * The new list for a mode (main.py:617-624): the requested codes, the
   * union without duplicates, or the existing codes minus the requested ones;
   * None for any other mode.
   */
  function NewFavorites(existing: seq<string>, codes: seq<string>, mode: string): (r: Option<seq<string>>)
    ensures r.None? <==> mode != "replace" && mode != "add" && mode != "remove"
    ensures mode == "replace" ==> r == Some(codes)
    ensures mode == "add" ==> (r.Some? && NoDuplicates(r.value) &&
              forall x :: x in r.value <==> x in existing || x in codes)
    ensures mode == "remove" ==> (r.Some? && forall x :: x in r.value <==> x in existing && x !in codes)
  {
    if mode == "replace" then Some(codes)
    else if mode == "add" then Some(Dedup(existing + codes))
    else if mode == "remove" then Some(RemoveAll(existing, codes))
    else None
  }

  /** Adding is idempotent: adding the same codes twice changes nothing more. */
  lemma AddTwice(existing: seq<string>, codes: seq<string>)
    ensures var once := NewFavorites(existing, codes, "add").value;
            var twice := NewFavorites(once, codes, "add").value;
            forall x :: x in twice <==> x in once
  {
  }

  /** Removing what was just added leaves only the codes that were there and not requested. */
  lemma AddThenRemove(existing: seq<string>, codes: seq<string>)
    ensures var added := NewFavorites(existing, codes, "add").value;
            var removed := NewFavorites(added, codes, "remove").value;
            forall x :: x in removed <==> x in existing && x !in codes
  {
  }

  /** The response of `set_favorites` (main.py:628-633). */
  datatype FavoritesResponse = FavoritesResponse(success: bool, count: nat, codes: seq<string>, mode: string)

  /**
   * The per-code outcome of the loop body: `get_fund_info` found nothing, or
   * found a record with or without a name that `upsert_instrument` stores, or
   * `upsert_instrument` raised an exception with the given message.
   */
  datatype FundInfo = NoInfo | Info(name: Option<string>) | Failed(message: string)

  const NotFoundMessage := "无法获取基金信息，请确认基金代码正确"

  /** `info.get('name', f'基金{code}')`. */
  function NameOf(code: string, name: Option<string>): string {
    if name.Some? then name.value else "基金" + code
  }

  /** An entry of `results`, status "added". */
  datatype AddedFund = AddedFund(code: string, name: string)

  /** An entry of `errors`. */
  datatype FundError = FundError(code: string, error: string)

  /** The codes that were added, in request order. */
  function AddedFunds(codes: seq<string>, info: string -> FundInfo): seq<AddedFund> {
    if |codes| == 0 then []
    else
      var init := AddedFunds(codes[..|codes| - 1], info);
      var c := codes[|codes| - 1];
      match info(c)
      case Info(name) => init + [AddedFund(c, NameOf(c, name))]
      case _ => init
  }

  /** The codes that failed, with their messages, in request order. */
  function FundErrors(codes: seq<string>, info: string -> FundInfo): seq<FundError> {
    if |codes| == 0 then []
    else
      var init := FundErrors(codes[..|codes| - 1], info);
      var c := codes[|codes| - 1];
      match info(c)
      case NoInfo => init + [FundError(c, NotFoundMessage)]
      case Failed(message) => init + [FundError(c, message)]
      case Info(_) => init
  }

  /** Every requested code ends up in exactly one of the two lists. */
  lemma {:induction false} EveryCodeAccounted(codes: seq<string>, info: string -> FundInfo)
    ensures |AddedFunds(codes, info)| + |FundErrors(codes, info)| == |codes|
  {
    if |codes| > 0 {
      EveryCodeAccounted(codes[..|codes| - 1], info);
    }
  }

  /**
   * An entry of `results` comes from a requested code whose lookup found a
   * record, named by the record or, without a name, by "基金" and the code.
   */
  lemma {:induction false} AddedFundsMembers(codes: seq<string>, info: string -> FundInfo, f: AddedFund)
    ensures f in AddedFunds(codes, info) <==>
              exists k :: 0 <= k < |codes| && codes[k] == f.code && info(codes[k]).Info? &&
                          f.name == NameOf(f.code, info(codes[k]).name)
  {
    if |codes| > 0 {
      var init := codes[..|codes| - 1];
      AddedFundsMembers(init, info, f);
      if exists k :: 0 <= k < |init| && init[k] == f.code && info(init[k]).Info? &&
                     f.name == NameOf(f.code, info(init[k]).name) {
        var k :| 0 <= k < |init| && init[k] == f.code && info(init[k]).Info? &&
                 f.name == NameOf(f.code, info(init[k]).name);
        assert codes[k] == init[k];
      }
    }
  }

  /**
   * An entry of `errors` comes from a requested code whose lookup found
   * nothing, with the fixed message, or whose `upsert_instrument` raised, with
   * the exception's message.
   */
  lemma {:induction false} FundErrorsMembers(codes: seq<string>, info: string -> FundInfo, e: FundError)
    ensures e in FundErrors(codes, info) <==>
              exists k :: 0 <= k < |codes| && codes[k] == e.code &&
                          ((info(codes[k]).NoInfo? && e.error == NotFoundMessage) ||
                           (info(codes[k]).Failed? && e.error == info(codes[k]).message))
  {
    if |codes| > 0 {
      var init := codes[..|codes| - 1];
      FundErrorsMembers(init, info, e);
      if exists k :: 0 <= k < |init| && init[k] == e.code &&
                     ((info(init[k]).NoInfo? && e.error == NotFoundMessage) ||
                      (info(init[k]).Failed? && e.error == info(init[k]).message)) {
        var k :| 0 <= k < |init| && init[k] == e.code &&
                 ((info(init[k]).NoInfo? && e.error == NotFoundMessage) ||
                  (info(init[k]).Failed? && e.error == info(init[k]).message));
        assert codes[k] == init[k];
      }
    }
  }

  /**
   * The loop of `batch_add_funds` (main.py:516-557): a code whose lookup
   * finds nothing or raises becomes an error, any other is added and, when
   * syncing is requested, scheduled for a sync.
   */
  method AddFunds(codes: seq<string>, syncData: bool, info: string -> FundInfo)
    returns (results: seq<AddedFund>, errors: seq<FundError>, added: nat, synced: nat)
    ensures results == AddedFunds(codes, info) && errors == FundErrors(codes, info)
    ensures added == |results| && |results| + |errors| == |codes|
    ensures synced == if syncData then added else 0
  {
    results, errors := [], [];
    added, synced := 0, 0;
    for n := 0 to |codes|
      invariant results == AddedFunds(codes[..n], info) && errors == FundErrors(codes[..n], info)
      invariant added == |results| && synced == if syncData then added else 0
    {
      var code := codes[n];
      assert codes[..n + 1][..n] == codes[..n];
      match info(code)
      case NoInfo =>
        errors := errors + [FundError(code, NotFoundMessage)];
      case Failed(message) =>
        errors := errors + [FundError(code, message)];
      case Info(name) =>
        added := added + 1;
        results := results + [AddedFund(code, NameOf(code, name))];
        if syncData {
          synced := synced + 1;
        }
    }
    assert codes[..|codes|] == codes;
    EveryCodeAccounted(codes, info);
  }

  /** The response of `batch_add_funds` (main.py:568-575). */
  datatype BatchResponse = BatchResponse(
    success: bool,
    added: nat,
    synced: nat,
    favoritesUpdated: nat,
    results: seq<AddedFund>,
    errors: seq<FundError>)

  /** The stored favorites list, read and saved by both endpoints. */
  class FavoritesStore {
    var favorites: seq<string>

    constructor(initial: seq<string>)
      ensures favorites == initial
    {
      favorites := initial;
    }

    /**
     * `set_favorites` (main.py:599-633): saves the new list and reports it,
     * or answers 400 for an unknown mode and saves nothing.
     */
    method SetFavorites(codes: seq<string>, mode: string) returns (r: Result<FavoritesResponse, nat>)
      modifies this
      ensures NewFavorites(old(favorites), codes, mode).None? ==> r == Err(400) && favorites == old(favorites)
      ensures NewFavorites(old(favorites), codes, mode).Some? ==>
                favorites == NewFavorites(old(favorites), codes, mode).value &&
                r == Ok(FavoritesResponse(true, |favorites|, favorites, mode))
    {
      var existing := favorites;
      var newFavorites: seq<string>;
      if mode == "replace" {
        newFavorites := codes;
      } else if mode == "add" {
        newFavorites := Dedup(existing + codes);
      } else if mode == "remove" {
        newFavorites := RemoveAll(existing, codes);
      } else {
        return Err(400);
      }
      favorites := newFavorites;
      r := Ok(FavoritesResponse(true, |newFavorites|, newFavorites, mode));
    }

    /**
     * `batch_add_funds` (main.py:500-575). With `setFavorite`, every requested
     * code joins the favorites, the ones that failed included, and the count
     * reported is the number of requested codes.
     */
    method BatchAddFunds(codes: seq<string>, syncData: bool, setFavorite: bool, info: string -> FundInfo)
      returns (r: BatchResponse)
      modifies this
      ensures r.results == AddedFunds(codes, info) && r.errors == FundErrors(codes, info)
      ensures r.success <==> |r.errors| == 0
      ensures r.added == |r.results| && r.synced == (if syncData then r.added else 0)
      ensures setFavorite ==> favorites == Dedup(old(favorites) + codes) && r.favoritesUpdated == |codes|
      ensures !setFavorite ==> favorites == old(favorites) && r.favoritesUpdated == 0
    {
      var results, errors, added, synced := AddFunds(codes, syncData, info);
      var favoritesUpdated := 0;
      if setFavorite {
        favorites := Dedup(favorites + codes);
        favoritesUpdated := |codes|;
      }
      r := BatchResponse(|errors| == 0, added, synced, favoritesUpdated, results, errors);
    }
  }

  /** With favorites requested, the saved list is the union of the old list and all requested codes. */
  lemma BatchFavoritesUnion(existing: seq<string>, codes: seq<string>)
    ensures NoDuplicates(Dedup(existing + codes))
    ensures forall x :: x in Dedup(existing + codes) <==> x in existing || x in codes
  {
  }

  /**
   * `favorites_updated` counts requests, not changes: re-adding a code that
   * is already a favorite still counts it, twice when it is requested twice.
   */
  lemma FavoritesUpdatedCountsRequests()
    ensures var existing, codes := ["000001"], ["000001", "000001"];
            |Dedup(existing + codes)| == 1 && |codes| == 2
  {
    var s := ["000001"] + ["000001", "000001"];
    assert Dedup(s[..1]) == ["000001"];
    assert Dedup(s[..2]) == ["000001"] by { assert s[..2][..1] == s[..1]; }
    assert s[..3] == s;
  }
}
