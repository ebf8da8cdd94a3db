/**
 * The preprocessing metadata every document carries, and the two queries
 * the document manager offers over saved documents, as
 * tests/test_db_preprocess_administration.py states them. A document's
 * result for a step is kept in a map from step to payload; payloads are of
 * any type `P`, which the model never looks into.
 */
module Preprocess {
  import opened Wrappers

  /** The preprocessing steps, declared in pipeline order. */
  datatype Step = Tokenization | Segmentation | Tagging | Nerc

  /** The steps as the enumeration lists them. */
  const Steps: seq<Step> := [Tokenization, Segmentation, Tagging, Nerc]

  function Name(step: Step): string {
    match step
    case Tokenization => "tokenization"
    case Segmentation => "segmentation"
    case Tagging => "tagging"
    case Nerc => "nerc"
  }

  /** A step's position in the enumeration. */
  function Ordinal(step: Step): (i: nat)
    ensures i < |Steps| && Steps[i] == step
  {
    match step
    case Tokenization => 0
    case Segmentation => 1
    case Tagging => 2
    case Nerc => 3
  }

  /** The enumeration lists every step once, and its names are
      tokenization, segmentation, tagging, nerc, in that order. */
  lemma StepsEnumeration()
    ensures forall step: Step :: step in Steps
    ensures forall i, j :: 0 <= i < j < |Steps| ==> Steps[i] != Steps[j]
    ensures seq(|Steps|, i requires 0 <= i < |Steps| => Name(Steps[i]))
      == ["tokenization", "segmentation", "tagging", "nerc"]
  {
    forall step: Step ensures step in Steps {
      var i := Ordinal(step);
    }
  }

  class Document<P> {
    var text: string
    var results: map<Step, P>

    /** A just-created document has no step done and no result. */
    constructor (text: string)
      ensures this.text == text
      ensures forall step :: !WasPreprocessDone(step) && GetPreprocessResult(step) == None
    {
      this.text := text;
      results := map[];
    }

    /** A step is done exactly when the document holds a result for it. */
    predicate WasPreprocessDone(step: Step): (done: bool)
      reads this
      ensures done <==> GetPreprocessResult(step).Some?
    {
      step in results
    }

    /** The payload stored for `step`, or nothing when none is. */
    function GetPreprocessResult(step: Step): (r: Option<P>)
      reads this
      ensures r.Some? <==> step in results
      ensures r.Some? ==> r.value == results[step]
    {
      if step in results then Some(results[step]) else None
    }

    /** Marks `step` done with `payload` as its result; no other step and
        not the text change. */
    method SetPreprocessResult(step: Step, payload: P)
      modifies this
      ensures WasPreprocessDone(step) && GetPreprocessResult(step) == Some(payload)
      ensures forall other :: other != step ==>
        WasPreprocessDone(other) == old(WasPreprocessDone(other)) &&
        GetPreprocessResult(other) == old(GetPreprocessResult(other))
      ensures text == old(text)
    {
      results := results[step := payload];
    }
  }

  class DocumentManager<P> {
    /** The saved documents. */
    var documents: seq<Document<P>>

    constructor ()
      ensures documents == []
    {
      documents := [];
    }

    /** Saving a document adds it to the saved ones, once. */
    method Save(doc: Document<P>)
      modifies this
      ensures documents == if doc in old(documents) then old(documents) else old(documents) + [doc]
    {
      if doc !in documents {
        documents := documents + [doc];
      }
    }

    /** The saved documents whose text is empty. */
    method GetRawDocuments() returns (raws: seq<Document<P>>)
      ensures forall d :: d in raws <==> d in documents && d.text == ""
    {
      raws := [];
      for i := 0 to |documents|
        invariant forall d :: d in raws <==> d in documents[..i] && d.text == ""
      {
        assert documents[..i + 1] == documents[..i] + [documents[i]];
        if documents[i].text == "" {
          raws := raws + [documents[i]];
        }
      }
      assert documents[..|documents|] == documents;
    }

    /** The saved documents that lack a result for `step`, whatever their
        text. */
    method GetDocumentsLackingPreprocess(step: Step) returns (lacking: seq<Document<P>>)
      ensures forall d :: d in lacking <==> d in documents && !d.WasPreprocessDone(step)
    {
      lacking := [];
      for i := 0 to |documents|
        invariant forall d :: d in lacking <==> d in documents[..i] && !d.WasPreprocessDone(step)
      {
        assert documents[..i + 1] == documents[..i] + [documents[i]];
        if !documents[i].WasPreprocessDone(step) {
          lacking := lacking + [documents[i]];
        }
      }
      assert documents[..|documents|] == documents;
    }
  }

  /** A result set for a step is reported done and read back unchanged. */
  method SetResultCanBeRetrieved<P>(text: string, step: Step, payload: P)
    returns (doneBefore: bool, doneAfter: bool, result: Option<P>)
    ensures !doneBefore && doneAfter && result == Some(payload)
  {
    var doc := new Document<P>(text);
    doneBefore := doc.WasPreprocessDone(step);
    doc.SetPreprocessResult(step, payload);
    doneAfter := doc.WasPreprocessDone(step);
    result := doc.GetPreprocessResult(step);
  }

  /** Of a saved empty document and a saved non-empty one, only the empty
      one is raw. */
  method RawDocumentsAreFiltered() returns (empty: Document<seq<string>>, nonEmpty: Document<seq<string>>, raws: seq<Document<seq<string>>>)
    ensures empty in raws && nonEmpty !in raws
  {
    var manager := new DocumentManager<seq<string>>();
    empty := new Document("");
    manager.Save(empty);
    nonEmpty := new Document("something");
    manager.Save(nonEmpty);
    raws := manager.GetRawDocuments();
  }

  /** Of three saved documents, the empty one and the untokenized non-empty
      one lack tokenization and the tokenized one does not; the untokenized
      non-empty one is still not raw. */
  method UntokenizedDocumentsAreFiltered()
    returns (empty: Document<seq<string>>, untokenized: Document<seq<string>>, tokenized: Document<seq<string>>,
             lacking: seq<Document<seq<string>>>, raws: seq<Document<seq<string>>>)
    ensures empty in lacking && untokenized in lacking && tokenized !in lacking
    ensures empty in raws && untokenized !in raws
  {
    var manager := new DocumentManager<seq<string>>();
    empty := new Document("");
    manager.Save(empty);
    untokenized := new Document("something");
    manager.Save(untokenized);
    tokenized := new Document("something nice");
    manager.Save(tokenized);
    tokenized.SetPreprocessResult(Tokenization, ["something", "nice"]);
    manager.Save(tokenized);
    lacking := manager.GetDocumentsLackingPreprocess(Tokenization);
    raws := manager.GetRawDocuments();
  }
}
