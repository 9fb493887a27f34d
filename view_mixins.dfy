/** The two generic pieces the view sets are built from: the nested-route
    view set, which reads its lookup keys from two parallel lists, and the
    mixin that picks a serializer per action. */
module ViewMixins {
  import opened Http

  /** Reading `lookup_field` or `lookup_url_kwarg` on a nested view set gives
      the last element of the plural list attribute. */
  datatype LastLookup = Name(name: string) | PyNone | IndexError

  /** `values` is the plural attribute, or None when the view has no such
      attribute and the default list holding only Python's None is used. */
  function LookupAttribute(values: Option<seq<string>>): (a: LastLookup)
    ensures values.None? <==> a.PyNone?
    ensures values == Some([]) <==> a.IndexError?
    ensures a.Name? ==> values.Some? && |values.value| > 0 && a.name == values.value[|values.value| - 1]
  {
    match values
    case None => PyNone
    case Some(s) => if |s| == 0 then IndexError else Name(s[|s| - 1])
  }

  function AllButLast(s: seq<string>): (r: seq<string>)
    ensures |s| == 0 ==> r == []
    ensures |s| > 0 ==> r + [s[|s| - 1]] == s
  {
    if |s| == 0 then [] else s[..|s| - 1]
  }

  /** The URL keyword arguments that filter on ancestors: all but the last of
      the lookup URL kwargs, or of the lookup fields when there are no kwargs. */
  function AncestorKwargs(lookupFields: seq<string>, lookupUrlKwargs: seq<string>): (a: seq<string>)
    ensures var named := if |lookupUrlKwargs| > 0 then lookupUrlKwargs else lookupFields;
            && (|named| == 0 ==> a == [])
            && (|named| > 0 ==> a + [named[|named| - 1]] == named)
  {
    if |lookupUrlKwargs| > 0 then AllButLast(lookupUrlKwargs) else AllButLast(lookupFields)
  }

  /** The ancestor kwargs followed by the object's own kwarg, as the parent
      view reads it through `lookup_url_kwarg`, are the whole kwargs list. */
  lemma AncestorsThenObjectKwarg(lookupFields: seq<string>, lookupUrlKwargs: seq<string>)
    requires |lookupUrlKwargs| > 0
    ensures var last := LookupAttribute(Some(lookupUrlKwargs));
            last.Name? && AncestorKwargs(lookupFields, lookupUrlKwargs) + [last.name] == lookupUrlKwargs
  {
  }

  datatype LookupError = MissingUrlKwarg(kwarg: string) | LookupFieldIndexError

  datatype FilterResult = Filters(filters: map<string, string>) | LookupFailed(error: LookupError)

  /** Ancestor `i` can be turned into a filter: its kwarg was passed in the
      URL and there is a lookup field at its index. */
  predicate Usable(ancestors: seq<string>, lookupFields: seq<string>, kwargs: map<string, string>, i: int)
    requires 0 <= i < |ancestors|
  {
    ancestors[i] in kwargs && i < |lookupFields|
  }

  /** No lookup field after index `i` (and before `n`) repeats field `i`, so
      its filter is the one the dictionary keeps. */
  predicate LastOccurrence(lookupFields: seq<string>, n: int, i: int)
    requires 0 <= i < n <= |lookupFields|
  {
    forall j :: i < j < n ==> lookupFields[j] != lookupFields[i]
  }

  /** The filter `get_queryset` applies to the view's queryset: maps
      `lookupFields[i]` to the URL value of the i-th ancestor kwarg. */
  method NestedFilter(lookupFields: seq<string>, lookupUrlKwargs: seq<string>, kwargs: map<string, string>)
    returns (r: FilterResult)
    ensures var ancestors := AncestorKwargs(lookupFields, lookupUrlKwargs);
            r.Filters? <==> (forall i :: 0 <= i < |ancestors| ==> Usable(ancestors, lookupFields, kwargs, i))
    ensures var ancestors := AncestorKwargs(lookupFields, lookupUrlKwargs);
            r.Filters? ==>
              && |ancestors| <= |lookupFields|
              && r.filters.Keys == (set i | 0 <= i < |ancestors| :: lookupFields[i])
              && forall i :: 0 <= i < |ancestors| && LastOccurrence(lookupFields, |ancestors|, i) ==>
                   ancestors[i] in kwargs && r.filters[lookupFields[i]] == kwargs[ancestors[i]]
    // The first ancestor that cannot be used decides the error.
    ensures var ancestors := AncestorKwargs(lookupFields, lookupUrlKwargs);
            r.LookupFailed? ==>
              exists i :: 0 <= i < |ancestors|
                && (forall j :: 0 <= j < i ==> Usable(ancestors, lookupFields, kwargs, j))
                && (ancestors[i] !in kwargs ==> r.error == MissingUrlKwarg(ancestors[i]))
                && (ancestors[i] in kwargs ==> i >= |lookupFields| && r.error == LookupFieldIndexError)
    // The index error needs at least two more URL kwargs than lookup fields.
    ensures r == LookupFailed(LookupFieldIndexError) ==> |lookupUrlKwargs| >= |lookupFields| + 2
  {
    var ancestors := AncestorKwargs(lookupFields, lookupUrlKwargs);
    var filters: map<string, string> := map[];
    var index := 0;
    while index < |ancestors|
      invariant 0 <= index <= |ancestors| && index <= |lookupFields|
      invariant forall j :: 0 <= j < index ==> Usable(ancestors, lookupFields, kwargs, j)
      invariant filters.Keys == (set j | 0 <= j < index :: lookupFields[j])
      invariant forall j :: 0 <= j < index && LastOccurrence(lookupFields, index, j) ==>
                  ancestors[j] in kwargs && filters[lookupFields[j]] == kwargs[ancestors[j]]
    {
      var kwarg := ancestors[index];
      if !Usable(ancestors, lookupFields, kwargs, index) {
        assert forall j :: 0 <= j < index ==> Usable(ancestors, lookupFields, kwargs, j);
      }
      if kwarg !in kwargs {
        return LookupFailed(MissingUrlKwarg(kwarg));
      }
      if index >= |lookupFields| {
        assert |lookupUrlKwargs| > 0 && |ancestors| + 1 == |lookupUrlKwargs| by {
          if |lookupUrlKwargs| > 0 {
            assert |ancestors + [lookupUrlKwargs[|lookupUrlKwargs| - 1]]| == |lookupUrlKwargs|;
          }
        }
        return LookupFailed(LookupFieldIndexError);
      }
      filters := filters[lookupFields[index] := kwargs[kwarg]];
      index := index + 1;
    }
    return Filters(filters);
  }

  /** With lookup fields given and no URL kwargs, the ancestors are the
      fields themselves, so no index can fall off the fields list. */
  lemma FieldsOnlyNeverIndexError(lookupFields: seq<string>)
    ensures var ancestors := AncestorKwargs(lookupFields, []);
            |ancestors| <= |lookupFields|
            && forall i :: 0 <= i < |ancestors| ==> ancestors[i] == lookupFields[i]
  {
  }

  /** `serializer_classes.get(action, default_serializer_class)`. */
  function SerializerClass<A, S>(serializerClasses: map<A, S>, action: A, default: S): (s: S)
    ensures action in serializerClasses ==> s == serializerClasses[action]
    ensures action !in serializerClasses ==> s == default
  {
    if action in serializerClasses then serializerClasses[action] else default
  }
}
