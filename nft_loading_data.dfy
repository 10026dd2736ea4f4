/** The per-token loading state of the interface: three dictionaries keyed
    by `baseURI + "-" + tokenId`, updated by the pending, fulfilled and
    rejected outcomes of a fetch and by two clearing actions. */
module NftLoadingData {
  import opened Wrappers
  import opened Js
  import IpfsService

  type NftMetadataWithVideo = IpfsService.WithVideo

  datatype NftState = NftState(
    data: map<string, NftMetadataWithVideo>,
    loading: map<string, bool>,
    errors: map<string, string>)

  const InitialState: NftState := NftState(map[], map[], map[])

  /** `makeKey(baseURI, tokenId)` */
  function MakeKey(baseURI: string, tokenId: real, numberText: real -> string): string
  {
    baseURI + "-" + NumberToString(tokenId, numberText)
  }

  /** The actions the slice handles. `Pending` carries the thunk's
      arguments; `Fulfilled` and `Rejected` carry the key the thunk built
      and its payload. */
  datatype Action =
    | ClearError(key: string)
    | ClearNftData(key: string)
    | Pending(baseURI: string, tokenId: real)
    | Fulfilled(key: string, result: NftMetadataWithVideo)
    | Rejected(key: string, error: string)

  /** The one key an action touches. */
  function ActionKey(action: Action, numberText: real -> string): string
  {
    match action
    case Pending(baseURI, tokenId) => MakeKey(baseURI, tokenId, numberText)
    case ClearError(key) => key
    case ClearNftData(key) => key
    case Fulfilled(key, _) => key
    case Rejected(key, _) => key
  }

  /** The slice's reducer. */
  function Reduce(s: NftState, action: Action, numberText: real -> string): NftState
  {
    match action
    case ClearError(key) => s.(errors := s.errors - {key})
    case ClearNftData(key) => NftState(s.data - {key}, s.loading - {key}, s.errors - {key})
    case Pending(baseURI, tokenId) =>
      var key := baseURI + "-" + NumberToString(tokenId, numberText);
      s.(loading := s.loading[key := true], errors := s.errors - {key})
    case Fulfilled(key, result) => s.(data := s.data[key := result], loading := s.loading[key := false])
    case Rejected(key, error) => s.(loading := s.loading[key := false], errors := s.errors[key := error])
  }

  function SelectNftData(s: NftState, baseURI: string, tokenId: real, numberText: real -> string): Option<NftMetadataWithVideo>
  {
    var key := baseURI + "-" + NumberToString(tokenId, numberText);
    if key in s.data then Some(s.data[key]) else None
  }

  /** `loading[key] || false` */
  function SelectNftLoading(s: NftState, baseURI: string, tokenId: real, numberText: real -> string): bool
  {
    var key := baseURI + "-" + NumberToString(tokenId, numberText);
    key in s.loading && s.loading[key]
  }

  function SelectNftError(s: NftState, baseURI: string, tokenId: real, numberText: real -> string): Option<string>
  {
    var key := baseURI + "-" + NumberToString(tokenId, numberText);
    if key in s.errors then Some(s.errors[key]) else None
  }

  /** The store's slice, updated in place as the Immer-style reducers do. */
  class NftLoadingStore {
    var data: map<string, NftMetadataWithVideo>
    var loading: map<string, bool>
    var errors: map<string, string>

    function State(): NftState
      reads this
    {
      NftState(data, loading, errors)
    }

    constructor ()
      ensures State() == InitialState
    {
      data, loading, errors := map[], map[], map[];
    }

    method ClearError(key: string)
      modifies this
      ensures data == old(data) && loading == old(loading) && errors == old(errors) - {key}
    {
      errors := errors - {key};
    }

    method ClearNftData(key: string)
      modifies this
      ensures data == old(data) - {key} && loading == old(loading) - {key} && errors == old(errors) - {key}
    {
      data := data - {key};
      loading := loading - {key};
      errors := errors - {key};
    }

    method Pending(baseURI: string, tokenId: real, numberText: real -> string)
      modifies this
      ensures State() == Reduce(old(State()), Action.Pending(baseURI, tokenId), numberText)
    {
      var key := baseURI + "-" + NumberToString(tokenId, numberText);
      loading := loading[key := true];
      errors := errors - {key};
    }

    method Fulfilled(key: string, result: NftMetadataWithVideo)
      modifies this
      ensures data == old(data)[key := result] && loading == old(loading)[key := false] && errors == old(errors)
    {
      data := data[key := result];
      loading := loading[key := false];
    }

    method Rejected(key: string, error: string)
      modifies this
      ensures data == old(data) && loading == old(loading)[key := false] && errors == old(errors)[key := error]
    {
      loading := loading[key := false];
      errors := errors[key := error];
    }

    /** Dispatching an action to the slice. */
    method Dispatch(action: Action, numberText: real -> string)
      modifies this
      ensures State() == Reduce(old(State()), action, numberText)
    {
      match action {
        case ClearError(key) => ClearError(key);
        case ClearNftData(key) => ClearNftData(key);
        case Pending(baseURI, tokenId) => Pending(baseURI, tokenId, numberText);
        case Fulfilled(key, result) => Fulfilled(key, result);
        case Rejected(key, error) => Rejected(key, error);
      }
    }
  }

  // ---------------------------------------------------------------- properties

  /** No action changes the entries of any key other than its own. */
  lemma OtherKeysUnchanged(s: NftState, action: Action, numberText: real -> string, key: string)
    requires key != ActionKey(action, numberText)
    ensures var t := Reduce(s, action, numberText);
            (key in t.data <==> key in s.data) && (key in s.data ==> t.data[key] == s.data[key])
            && (key in t.loading <==> key in s.loading) && (key in s.loading ==> t.loading[key] == s.loading[key])
            && (key in t.errors <==> key in s.errors) && (key in s.errors ==> t.errors[key] == s.errors[key])
  {
  }

  /** A fetch that starts and succeeds leaves the data readable through the
      selectors with the same base and id, not loading and without error:
      the pending handler, the thunk's key and the selectors agree. */
  lemma FetchSucceeds(s: NftState, baseURI: string, tokenId: real, result: NftMetadataWithVideo, numberText: real -> string)
    ensures var t := Reduce(Reduce(s, Pending(baseURI, tokenId), numberText),
                            Fulfilled(MakeKey(baseURI, tokenId, numberText), result), numberText);
            SelectNftData(t, baseURI, tokenId, numberText) == Some(result)
            && !SelectNftLoading(t, baseURI, tokenId, numberText)
            && SelectNftError(t, baseURI, tokenId, numberText) == None
  {
  }

  /** While a fetch is pending, the token reads as loading with no error,
      and earlier data stays visible. */
  lemma FetchPending(s: NftState, baseURI: string, tokenId: real, numberText: real -> string)
    ensures var t := Reduce(s, Pending(baseURI, tokenId), numberText);
            SelectNftLoading(t, baseURI, tokenId, numberText)
            && SelectNftError(t, baseURI, tokenId, numberText) == None
            && SelectNftData(t, baseURI, tokenId, numberText) == SelectNftData(s, baseURI, tokenId, numberText)
  {
  }

  /** A fetch that starts and fails records the error, stops loading, and
      keeps whatever data was there before. */
  lemma FetchFails(s: NftState, baseURI: string, tokenId: real, error: string, numberText: real -> string)
    ensures var t := Reduce(Reduce(s, Pending(baseURI, tokenId), numberText),
                            Rejected(MakeKey(baseURI, tokenId, numberText), error), numberText);
            SelectNftData(t, baseURI, tokenId, numberText) == SelectNftData(s, baseURI, tokenId, numberText)
            && !SelectNftLoading(t, baseURI, tokenId, numberText)
            && SelectNftError(t, baseURI, tokenId, numberText) == Some(error)
  {
  }

  /** After `clearNftData` the token reads as it does in the initial state. */
  lemma ClearNftDataForgets(s: NftState, baseURI: string, tokenId: real, numberText: real -> string)
    ensures var t := Reduce(s, ClearNftData(MakeKey(baseURI, tokenId, numberText)), numberText);
            SelectNftData(t, baseURI, tokenId, numberText) == SelectNftData(InitialState, baseURI, tokenId, numberText)
            && SelectNftLoading(t, baseURI, tokenId, numberText) == SelectNftLoading(InitialState, baseURI, tokenId, numberText)
            && SelectNftError(t, baseURI, tokenId, numberText) == SelectNftError(InitialState, baseURI, tokenId, numberText)
  {
  }

  /** A token the slice has never seen is not loading. */
  lemma UnknownKeyNotLoading(s: NftState, baseURI: string, tokenId: real, numberText: real -> string)
    requires MakeKey(baseURI, tokenId, numberText) !in s.loading
    ensures !SelectNftLoading(s, baseURI, tokenId, numberText)
  {
  }

  /** `clearError` removes one error and touches nothing else; doing it
      twice is doing it once. */
  lemma ClearErrorIdempotent(s: NftState, key: string, numberText: real -> string)
    ensures var t := Reduce(s, ClearError(key), numberText);
            key !in t.errors && t.data == s.data && t.loading == s.loading
            && Reduce(t, ClearError(key), numberText) == t
  {
  }

  /** For whole-number ids below 10^21 the key determines the base and the
      id: distinct tokens never share an entry. */
  lemma MakeKeyInjective(base1: string, id1: nat, base2: string, id2: nat, numberText: real -> string)
    requires (id1 as real) < DecimalLimit && (id2 as real) < DecimalLimit
    requires MakeKey(base1, id1 as real, numberText) == MakeKey(base2, id2 as real, numberText)
    ensures base1 == base2 && id1 == id2
  {
    var d1, d2 := Decimal(id1), Decimal(id2);
    var k := MakeKey(base1, id1 as real, numberText);
    assert k == base1 + "-" + d1 && k == base2 + "-" + d2;
    assert "-" == ['-'];
    LastIndexOfJoin(base1, '-', d1);
    LastIndexOfJoin(base2, '-', d2);
    assert |base1| == |base2|;
    assert d1 == k[|base1| + 1..] == d2;
    assert base1 == k[..|base1|] == base2;
    DecimalInjective(id1, id2);
  }
}
