/** The flattening extractor: a parsed JSON mapping from category name to a
    list of item objects becomes one list of (name, filename, category)
    records, or the empty list when anything goes wrong. */
module Extractor {

  import opened Wrappers

  /** One element of a category's list: a JSON object, whose `name` and
      `filename` keys may each be absent, or any other JSON value. */
  datatype Element = Object(name: Option<string>, filename: Option<string>) | NonObject

  /** The value stored under a category: a JSON array, or anything else. */
  datatype Value = List(elements: seq<Element>) | Other

  /** The top-level mapping, as its (key, value) pairs in insertion order. */
  type Document = seq<(string, Value)>

  /** What opening and parsing the input file yields: the top-level mapping,
      or a failure (missing file, malformed JSON, a top level that is not an
      object), all of which the broad handler turns into the empty list. */
  datatype Source = Loaded(doc: Document) | LoadError

  /** A flattened gallery item. */
  datatype Record = Record(name: string, filename: string, category: string)

  /** Reading both `name` and `filename` off the element succeeds. */
  predicate HasFields(e: Element) {
    e.Object? && e.name.Some? && e.filename.Some?
  }

  function RecordOf(category: string, e: Element): Record
    requires HasFields(e)
  {
    Record(e.name.value, e.filename.value, category)
  }

  /** Every element of every list-valued category has both fields. */
  predicate WellFormed(doc: Document) {
    forall k, j :: 0 <= k < |doc| && doc[k].1.List? && 0 <= j < |doc[k].1.elements| ==>
      HasFields(doc[k].1.elements[j])
  }

  /** The number of elements over all list-valued categories; other values count nothing. */
  function TotalListLength(doc: Document): nat {
    if doc == [] then 0
    else
      var last := doc[|doc| - 1].1;
      TotalListLength(doc[..|doc| - 1]) + (if last.List? then |last.elements| else 0)
  }

  /** Both parts succeed and their records are concatenated, or the whole fails. */
  function Combine(a: Option<seq<Record>>, b: Option<seq<Record>>): Option<seq<Record>> {
    if a.Some? && b.Some? then Some(a.value + b.value) else None
  }

  /** The records of one category's list, in list order; None as soon as one
      element lacks a field. */
  function ListRecords(category: string, elements: seq<Element>): (r: Option<seq<Record>>)
    ensures r.Some? <==> forall j :: 0 <= j < |elements| ==> HasFields(elements[j])
    ensures r.Some? ==> |r.value| == |elements|
    ensures r.Some? ==> forall j :: 0 <= j < |elements| ==> r.value[j] == RecordOf(category, elements[j])
  {
    if elements == [] then Some([])
    else
      var last := elements[|elements| - 1];
      if HasFields(last) then Combine(ListRecords(category, elements[..|elements| - 1]), Some([RecordOf(category, last)]))
      else None
  }

  /** What one (category, value) pair contributes: a list's records, or nothing. */
  function EntryRecords(entry: (string, Value)): Option<seq<Record>> {
    match entry.1
    case List(elements) => ListRecords(entry.0, elements)
    case Other => Some([])
  }

  /** The flattening of the whole mapping, category by category. */
  function Flatten(doc: Document): (r: Option<seq<Record>>)
    ensures r.Some? <==> WellFormed(doc)
    ensures r.Some? ==> |r.value| == TotalListLength(doc)
  {
    if doc == [] then Some([])
    else
      var init := doc[..|doc| - 1];
      assert forall k :: 0 <= k < |init| ==> init[k] == doc[k];
      Combine(Flatten(init), EntryRecords(doc[|doc| - 1]))
  }

  /** The list the extractor returns: the flattening, or [] on any failure. */
  function Extracted(src: Source): (r: seq<Record>)
    ensures src.Loaded? && WellFormed(src.doc) ==> |r| == TotalListLength(src.doc)
    ensures !(src.Loaded? && WellFormed(src.doc)) ==> r == []
  {
    if src.Loaded? && Flatten(src.doc).Some? then Flatten(src.doc).value else []
  }

  lemma CombineAssociative(a: Option<seq<Record>>, b: Option<seq<Record>>, c: Option<seq<Record>>)
    ensures Combine(a, Combine(b, c)) == Combine(Combine(a, b), c)
  {
    if a.Some? && b.Some? && c.Some? {
      assert a.value + (b.value + c.value) == (a.value + b.value) + c.value;
    }
  }

  /** The categories of `a` contribute first, then those of `b`; the whole
      fails when either part does. */
  lemma {:induction false} FlattenAppend(a: Document, b: Document)
    ensures Flatten(a + b) == Combine(Flatten(a), Flatten(b))
  {
    if b == [] {
      assert a + b == a;
      if Flatten(a).Some? {
        assert Flatten(a).value + [] == Flatten(a).value;
      }
    } else {
      var init := b[..|b| - 1];
      assert (a + b)[..|a + b| - 1] == a + init;
      assert (a + b)[|a + b| - 1] == b[|b| - 1];
      FlattenAppend(a, init);
      CombineAssociative(Flatten(a), Flatten(init), EntryRecords(b[|b| - 1]));
    }
  }

  /** A category whose value is not a list contributes no records and causes no failure. */
  lemma FlattenSkipsOther(a: Document, key: string, b: Document)
    ensures Flatten(a + [(key, Other)] + b) == Flatten(a + b)
  {
    FlattenAppend(a, [(key, Other)]);
    assert Flatten([(key, Other)]) == Some([]) by {
      assert [(key, Other)][..0] == [];
    }
    if Flatten(a).Some? {
      assert Flatten(a).value + [] == Flatten(a).value;
    }
    FlattenAppend(a + [(key, Other)], b);
    FlattenAppend(a, b);
  }

  /** Element `j` of category `k` becomes the record at position
      TotalListLength(doc[..k]) + j: the records follow category order, then
      list order, carry their category's key and copy name and filename. */
  lemma {:induction false} FlattenAt(doc: Document, k: nat, j: nat)
    requires WellFormed(doc)
    requires k < |doc| && doc[k].1.List? && j < |doc[k].1.elements|
    ensures TotalListLength(doc[..k]) + j < |Flatten(doc).value|
    ensures Flatten(doc).value[TotalListLength(doc[..k]) + j] == RecordOf(doc[k].0, doc[k].1.elements[j])
  {
    var init := doc[..|doc| - 1];
    assert forall k' :: 0 <= k' < |init| ==> init[k'] == doc[k'];
    assert WellFormed(init);
    if k == |doc| - 1 {
      assert HasFields(doc[k].1.elements[j]);
    } else {
      FlattenAt(init, k, j);
      assert init[..k] == doc[..k];
    }
  }

  /** An element position: category `k` is list-valued and `j` indexes its list. */
  predicate IsElementAt(doc: Document, k: int, j: int) {
    0 <= k < |doc| && doc[k].1.List? && 0 <= j < |doc[k].1.elements|
  }

  /** Conversely, every record of the flattening comes from some element. */
  lemma {:induction false} FlattenOrigin(doc: Document, i: nat)
    requires WellFormed(doc)
    requires i < |Flatten(doc).value|
    ensures exists k, j :: IsElementAt(doc, k, j) && TotalListLength(doc[..k]) + j == i
  {
    var init := doc[..|doc| - 1];
    assert forall k' :: 0 <= k' < |init| ==> init[k'] == doc[k'];
    assert WellFormed(init);
    if i < TotalListLength(init) {
      FlattenOrigin(init, i);
      var k, j :| IsElementAt(init, k, j) && TotalListLength(init[..k]) + j == i;
      assert init[..k] == doc[..k];
      assert IsElementAt(doc, k, j);
    } else {
      var k := |doc| - 1;
      assert doc[..k] == init;
      assert IsElementAt(doc, k, i - TotalListLength(init));
    }
  }

  /** The nested loops of the extractor: append each record in turn, and
      return [] as soon as an element lacks a field. */
  method ExtractItems(src: Source) returns (allItems: seq<Record>)
    ensures allItems == Extracted(src)
  {
    if src.LoadError? {
      return [];
    }
    var doc := src.doc;
    allItems := [];
    var k := 0;
    while k < |doc|
      invariant 0 <= k <= |doc|
      invariant Flatten(doc[..k]) == Some(allItems)
    {
      var (category, value) := doc[k];
      assert doc[..k + 1][..k] == doc[..k];
      if value.List? {
        var elements := value.elements;
        ghost var before := allItems;
        ghost var added := [];
        var j := 0;
        while j < |elements|
          invariant 0 <= j <= |elements|
          invariant ListRecords(category, elements[..j]) == Some(added)
          invariant allItems == before + added
        {
          var element := elements[j];
          if !HasFields(element) {
            assert !WellFormed(doc) by {
              assert !HasFields(doc[k].1.elements[j]);
            }
            return [];
          }
          assert elements[..j + 1][..j] == elements[..j];
          allItems := allItems + [RecordOf(category, element)];
          added := added + [RecordOf(category, element)];
          j := j + 1;
        }
        assert elements[..j] == elements;
      } else {
        assert allItems + [] == allItems;
      }
      k := k + 1;
    }
    assert doc[..k] == doc;
  }
}
