/**
 * The post-office filter of the pincode fetcher component: the list the
 * component renders is the `PostOffice` array of the current lookup result,
 * restricted to the offices whose name, district, state or country starts
 * with the search term, ignoring case.
 */
module PostOfficeFilter {
  import opened Wrappers
  import opened JsBuiltins

  /** One post-office record as the lookup service returns it. */
  datatype PostOffice = PostOffice(name: string, district: string, state: string, country: string, pincode: string)

  /** One element of the lookup response; `postOffices` is None when the response carries no `PostOffice` array. */
  datatype LookupResult = LookupResult(status: string, message: string, postOffices: Option<seq<PostOffice>>)

  /** `result?.PostOffice`: the office list, absent when there is no result or it has no list. */
  // The ensures below spell out what the `?.` operator means; they are its definition, not a derived property.
  function OfficesOf(result: Option<LookupResult>): (offices: Option<seq<PostOffice>>)
    ensures offices.Some? <==> result.Some? && result.value.postOffices.Some?
    ensures offices.Some? ==> offices == result.value.postOffices
  {
    match result
    case None => None
    case Some(r) => r.postOffices
  }

  /** The filter predicate: the lowered search term is a prefix of one of the four lowered text fields. */
  predicate Matches(office: PostOffice, searchTerm: string)
    ensures searchTerm == "" ==> Matches(office, searchTerm)
    ensures || StartsWith(office.name, searchTerm) || StartsWith(office.district, searchTerm)
            || StartsWith(office.state, searchTerm) || StartsWith(office.country, searchTerm)
            ==> Matches(office, searchTerm)
  {
    var lowerSearchTerm := ToLower(searchTerm);
    || StartsWith(ToLower(office.name), lowerSearchTerm)
    || StartsWith(ToLower(office.district), lowerSearchTerm)
    || StartsWith(ToLower(office.state), lowerSearchTerm)
    || StartsWith(ToLower(office.country), lowerSearchTerm)
  }

  /** `offices.filter(...)`: the offices that match, in their original order. */
  function FilterOffices(offices: seq<PostOffice>, searchTerm: string): (kept: seq<PostOffice>)
    ensures |kept| <= |offices|
    ensures forall o :: o in kept <==> o in offices && Matches(o, searchTerm)
  {
    if offices == [] then []
    else (if Matches(offices[0], searchTerm) then [offices[0]] else []) + FilterOffices(offices[1..], searchTerm)
  }

  /** `filteredPostOffices`: the filtered office list of the result, or `[]` when there is none. */
  function FilteredPostOffices(result: Option<LookupResult>, searchTerm: string): (filtered: seq<PostOffice>)
    ensures OfficesOf(result).None? ==> filtered == []
    ensures forall o :: o in filtered <==> OfficesOf(result).Some? && o in OfficesOf(result).value && Matches(o, searchTerm)
  {
    match OfficesOf(result)
    case None => []
    case Some(offices) => FilterOffices(offices, searchTerm)
  }

  /** idx lists, in increasing order, the positions of ys that the elements of xs come from. */
  ghost predicate IsOrderPreservingEmbedding<T>(idx: seq<int>, xs: seq<T>, ys: seq<T>) {
    && |idx| == |xs|
    && (forall i :: 0 <= i < |idx| ==> 0 <= idx[i] < |ys| && xs[i] == ys[idx[i]])
    && (forall i, j :: 0 <= i < j < |idx| ==> idx[i] < idx[j])
  }

  /** xs is obtained from ys by deleting elements, without reordering the rest. */
  ghost predicate IsSubsequence<T>(xs: seq<T>, ys: seq<T>) {
    exists idx :: IsOrderPreservingEmbedding(idx, xs, ys)
  }

  /** Every position moved one place to the right. */
  function Shift(idx: seq<int>): (shifted: seq<int>)
    ensures |shifted| == |idx|
    ensures forall i :: 0 <= i < |idx| ==> shifted[i] == idx[i] + 1
  {
    seq(|idx|, i requires 0 <= i < |idx| => idx[i] + 1)
  }

  /** An embedding of xs into ys, shifted, embeds xs into y prepended to ys, and never uses position 0. */
  lemma ShiftEmbedding<T>(idx: seq<int>, xs: seq<T>, y: T, ys: seq<T>)
    requires IsOrderPreservingEmbedding(idx, xs, ys)
    ensures IsOrderPreservingEmbedding(Shift(idx), xs, [y] + ys)
    ensures forall k :: 1 <= k <= |ys| ==> (k in Shift(idx) <==> k - 1 in idx)
    ensures 0 !in Shift(idx)
  {
    var shifted := Shift(idx);
    forall k | 1 <= k <= |ys|
      ensures k in shifted <==> k - 1 in idx
    {
      if k in shifted {
        var i :| 0 <= i < |shifted| && shifted[i] == k;
        assert idx[i] == k - 1;
      }
      if k - 1 in idx {
        var i :| 0 <= i < |idx| && idx[i] == k - 1;
        assert shifted[i] == k;
      }
    }
  }

  /** Prepending position 0 to a shifted embedding embeds y prepended to xs. */
  lemma ConsEmbedding<T>(shifted: seq<int>, xs: seq<T>, y: T, ys: seq<T>)
    requires IsOrderPreservingEmbedding(shifted, xs, [y] + ys)
    requires forall i :: 0 <= i < |shifted| ==> shifted[i] != 0
    ensures IsOrderPreservingEmbedding([0] + shifted, [y] + xs, [y] + ys)
  {
  }

  /**
   * The filtered list is the original list with exactly the non-matching
   * positions deleted: the returned positions are increasing, they are the
   * positions whose office matches, and the filtered list reads them in order.
   */
  lemma {:induction false} FilterKeepsMatchingPositions(offices: seq<PostOffice>, searchTerm: string) returns (idx: seq<int>)
    ensures IsOrderPreservingEmbedding(idx, FilterOffices(offices, searchTerm), offices)
    ensures forall k :: 0 <= k < |offices| ==> (k in idx <==> Matches(offices[k], searchTerm))
  {
    if offices == [] {
      idx := [];
    } else {
      var head, tail := offices[0], offices[1..];
      assert offices == [head] + tail;
      var tailKept := FilterOffices(tail, searchTerm);
      var rest := FilterKeepsMatchingPositions(tail, searchTerm);
      ShiftEmbedding(rest, tailKept, head, tail);
      var shifted := Shift(rest);
      assert forall k :: 1 <= k < |offices| ==> offices[k] == tail[k - 1];
      if Matches(head, searchTerm) {
        assert FilterOffices(offices, searchTerm) == [head] + tailKept;
        ConsEmbedding(shifted, tailKept, head, tail);
        idx := [0] + shifted;
      } else {
        assert FilterOffices(offices, searchTerm) == tailKept;
        idx := shifted;
      }
    }
  }

  /** Filtering never adds or reorders offices. */
  lemma FilterIsSubsequence(offices: seq<PostOffice>, searchTerm: string)
    ensures IsSubsequence(FilterOffices(offices, searchTerm), offices)
  {
    var idx := FilterKeepsMatchingPositions(offices, searchTerm);
  }

  /** The empty search term keeps every office: every string starts with "". */
  lemma {:induction false} FilterEmptyTermIsIdentity(offices: seq<PostOffice>)
    ensures FilterOffices(offices, "") == offices
  {
    if offices != [] {
      assert Matches(offices[0], "");
      FilterEmptyTermIsIdentity(offices[1..]);
    }
  }

  /** Two search terms with the same lower-case form select the same list. */
  lemma {:induction false} FilterIsCaseInsensitive(offices: seq<PostOffice>, a: string, b: string)
    requires ToLower(a) == ToLower(b)
    ensures FilterOffices(offices, a) == FilterOffices(offices, b)
  {
    if offices != [] {
      assert Matches(offices[0], a) == Matches(offices[0], b);
      FilterIsCaseInsensitive(offices[1..], a, b);
    }
  }

  /** Lower-casing the search term beforehand changes nothing. */
  lemma FilterByLoweredTerm(offices: seq<PostOffice>, searchTerm: string)
    ensures FilterOffices(offices, ToLower(searchTerm)) == FilterOffices(offices, searchTerm)
  {
    ToLowerIdempotent(searchTerm);
    FilterIsCaseInsensitive(offices, ToLower(searchTerm), searchTerm);
  }

  /** Typing more characters only narrows: the longer term filters the shorter term's list. */
  lemma {:induction false} FilterNarrowsAsTermGrows(offices: seq<PostOffice>, shorter: string, longer: string)
    requires StartsWith(longer, shorter)
    ensures FilterOffices(FilterOffices(offices, shorter), longer) == FilterOffices(offices, longer)
  {
    if offices != [] {
      var head, tail := offices[0], offices[1..];
      ToLowerKeepsPrefix(shorter, longer);
      assert Matches(head, longer) ==> Matches(head, shorter);
      FilterNarrowsAsTermGrows(tail, shorter, longer);
      if Matches(head, shorter) {
        var narrowed := [head] + FilterOffices(tail, shorter);
        assert FilterOffices(offices, shorter) == narrowed;
        assert narrowed[0] == head && narrowed[1..] == FilterOffices(tail, shorter);
        assert FilterOffices(narrowed, longer)
            == (if Matches(head, longer) then [head] else []) + FilterOffices(FilterOffices(tail, shorter), longer);
        assert FilterOffices(offices, longer) == (if Matches(head, longer) then [head] else []) + FilterOffices(tail, longer);
      } else {
        assert FilterOffices(offices, shorter) == FilterOffices(tail, shorter);
        assert FilterOffices(offices, longer) == FilterOffices(tail, longer);
      }
    }
  }

  /** Blanks every office's pincode, keeping the other fields. */
  function ErasePincodes(offices: seq<PostOffice>): (erased: seq<PostOffice>)
    ensures |erased| == |offices|
    ensures forall i :: 0 <= i < |offices| ==> erased[i] == offices[i].(pincode := "")
  {
    if offices == [] then [] else [offices[0].(pincode := "")] + ErasePincodes(offices[1..])
  }

  /** The pincode field is never consulted: filtering commutes with blanking it. */
  lemma {:induction false} FilterIgnoresPincode(offices: seq<PostOffice>, searchTerm: string)
    ensures ErasePincodes(FilterOffices(offices, searchTerm)) == FilterOffices(ErasePincodes(offices), searchTerm)
  {
    if offices != [] {
      var head := offices[0];
      assert Matches(head.(pincode := ""), searchTerm) == Matches(head, searchTerm);
      assert ErasePincodes(offices)[1..] == ErasePincodes(offices[1..]);
      FilterIgnoresPincode(offices[1..], searchTerm);
      var keptHead := if Matches(head, searchTerm) then [head] else [];
      assert FilterOffices(offices, searchTerm) == keptHead + FilterOffices(offices[1..], searchTerm);
      ErasePincodesAppend(keptHead, FilterOffices(offices[1..], searchTerm));
    }
  }

  lemma ErasePincodesAppend(xs: seq<PostOffice>, ys: seq<PostOffice>)
    ensures ErasePincodes(xs + ys) == ErasePincodes(xs) + ErasePincodes(ys)
  {
  }

  /**
   * With no result, or a result without an office list, nothing is shown whatever the term.
   * This is the first ensures of FilteredPostOffices, stated on `result` directly instead of through OfficesOf.
   */
  lemma FilteredIsEmptyWithoutOffices(result: Option<LookupResult>, searchTerm: string)
    requires result.None? || result.value.postOffices.None?
    ensures FilteredPostOffices(result, searchTerm) == []
  {
  }

  /** Matching is by prefix, not by substring: "Vadgaon Sheri" is found by "Vad" but not by "Sheri". */
  lemma PrefixNotSubstring()
    ensures var office := PostOffice("Vadgaon Sheri", "Pune", "Maharashtra", "India", "411014");
            Matches(office, "Vad") && !Matches(office, "Sheri")
  {
    var office := PostOffice("Vadgaon Sheri", "Pune", "Maharashtra", "India", "411014");
    ToLowerKeepsPrefix("Vad", office.name);
    FirstLetterMismatch(office.name, "Sheri");
    FirstLetterMismatch(office.district, "Sheri");
    FirstLetterMismatch(office.state, "Sheri");
    FirstLetterMismatch(office.country, "Sheri");
  }

  /** A field whose first letter differs, ignoring case, from the term's does not start with the term. */
  lemma FirstLetterMismatch(field: string, term: string)
    requires |field| > 0 && |term| > 0 && ToLowerChar(field[0]) != ToLowerChar(term[0])
    ensures !StartsWith(ToLower(field), ToLower(term))
  {
  }
}
