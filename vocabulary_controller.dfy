/** The decision rules of server/controllers/vocabularyController.js: the
    paged listing, the creator-or-admin rule of update and delete, the soft
    delete, the review list and the practice handler. The store is a sequence
    of documents with distinct ids; HTTP statuses are returned as numbers. */
module VocabularyController {
  import opened Common
  import opened VocabularyModel
  import opened Paging

  /** The authenticated caller (`req.user`). */
  datatype Caller = Caller(id: string, role: string)

  /** Update and delete are refused exactly when the word has a creator, the
      caller is not that creator, and the caller is not an admin. */
  predicate MayModify(addedBy: Option<string>, caller: Caller)
  {
    !(addedBy.Some? && addedBy.value != caller.id && caller.role != "admin")
  }

  lemma WhoMayModify(addedBy: Option<string>, caller: Caller)
    ensures MayModify(addedBy, caller) <==>
      addedBy.None? || addedBy == Some(caller.id) || caller.role == "admin"
  {
  }

  /** The body of `getVocabulary`'s reply. */
  datatype Listing = Listing(
    count: nat,
    total: nat,
    totalPages: nat,
    currentPage: nat,
    links: PageLinks,
    data: seq<VocabularyDoc>)

  /** `getVocabulary` once the query has selected and sorted `results`. The
      handler never reads the route's validation result, so any positive page
      and page size are served. */
  function GetVocabulary(results: seq<VocabularyDoc>, page: nat, limit: nat): (l: Listing)
    requires page >= 1 && limit >= 1
    ensures l.data == PageOf(results, page, limit)
    ensures l.count == |l.data| == Max(0, Min(limit, |results| - StartIndex(page, limit))) && l.total == |results|
    ensures l.currentPage == page
    ensures l.totalPages == TotalPages(|results|, limit) && l.links == Links(page, l.totalPages)
    ensures (l.totalPages - 1) * limit < |results| <= l.totalPages * limit
    ensures forall i :: 0 <= i < |l.data| ==>
      StartIndex(page, limit) + i < |results| && l.data[i] == results[StartIndex(page, limit) + i]
    ensures l.links.prev.Some? <==> page > 1
    ensures l.links.next.Some? <==> |PageOf(results, page + 1, limit)| > 0
  {
    var data := PageOf(results, page, limit);
    var pages := TotalPages(|results|, limit);
    NextLinkIffMoreResults(results, page, limit);
    Listing(|data|, |results|, pages, page, Links(page, pages), data)
  }

  /** The fields of `req.body` an update sets. `findByIdAndUpdate` writes
      every schema field the body names, the creator and the learning data
      included. */
  datatype VocabularyPatch = VocabularyPatch(
    word: Option<string>,
    translation: Option<string>,
    language: Option<string>,
    addedBy: Option<string>,
    isActive: Option<bool>,
    learning: Option<LearningData>)

  /** `runValidators: true`: a body whose learning data fails the schema is
      a `ValidationError`. */
  predicate PatchValid(p: VocabularyPatch)
  {
    p.learning.Some? ==> SchemaValid(p.learning.value)
  }

  function Patched(doc: VocabularyDoc, p: VocabularyPatch): (r: VocabularyDoc)
    ensures r.id == doc.id
    ensures r.word == (if p.word.Some? then p.word.value else doc.word)
    ensures r.translation == (if p.translation.Some? then p.translation.value else doc.translation)
    ensures r.language == (if p.language.Some? then p.language.value else doc.language)
    ensures r.addedBy == (if p.addedBy.Some? then p.addedBy else doc.addedBy)
    ensures r.isActive == (if p.isActive.Some? then p.isActive.value else doc.isActive)
    ensures r.learning == (if p.learning.Some? then p.learning.value else doc.learning)
  {
    doc.(word := if p.word.Some? then p.word.value else doc.word,
         translation := if p.translation.Some? then p.translation.value else doc.translation,
         language := if p.language.Some? then p.language.value else doc.language,
         addedBy := if p.addedBy.Some? then p.addedBy else doc.addedBy,
         isActive := if p.isActive.Some? then p.isActive.value else doc.isActive,
         learning := if p.learning.Some? then p.learning.value else doc.learning)
  }

  /** An empty body changes nothing, and patching twice with the same body is
      patching once. */
  lemma PatchIsIdempotent(doc: VocabularyDoc, p: VocabularyPatch)
    ensures Patched(doc, VocabularyPatch(None, None, None, None, None, None)) == doc
    ensures Patched(Patched(doc, p), p) == Patched(doc, p)
  {
  }

  /** A body that names another creator takes the word out of reach of a
      non-admin caller, its former creator included. */
  lemma PatchCanHandOverWord(doc: VocabularyDoc, p: VocabularyPatch, caller: Caller)
    requires caller.role != "admin" && p.addedBy.Some? && p.addedBy.value != caller.id
    ensures !MayModify(Patched(doc, p).addedBy, caller)
  {
  }

  /** `practice`'s reply data. */
  datatype PracticeReply = PracticeReply(
    mastery: int,
    status: MasteryStatus,
    accuracyRate: int,
    nextReview: int)

  function ReplyFor(d: LearningData): PracticeReply
    requires d.nextReview.Some?
  {
    PracticeReply(d.mastery, MasteryStatusOf(d.mastery), AccuracyRate(d), d.nextReview.value)
  }

  /** The stored documents, ids distinct. */
  class VocabularyStore {
    var docs: seq<VocabularyDoc>

    predicate Valid()
      reads this
    {
      forall i, j :: 0 <= i < j < |docs| ==> docs[i].id != docs[j].id
    }

    /** `findById`: where the document with this id is kept. */
    function Lookup(id: string): (k: Option<nat>)
      reads this
      ensures k.Some? ==> k.value < |docs| && docs[k.value].id == id
      ensures k.None? ==> forall i :: 0 <= i < |docs| ==> docs[i].id != id
    {
      FindFirst(docs, (d: VocabularyDoc) => d.id == id)
    }

    constructor (docs: seq<VocabularyDoc>)
      ensures this.docs == docs
    {
      this.docs := docs;
    }

    /** `updateVocabulary`: 400 on a request the route rejects, 404 for an
        unknown id, 403 by the creator-or-admin rule, 400 when the update
        fails the schema, else the fields are set. */
    method UpdateVocabulary(id: string, caller: Caller, requestValid: bool, patch: VocabularyPatch)
      returns (status: int)
      requires Valid()
      modifies this
      ensures Valid()
      ensures !requestValid ==> status == 400 && docs == old(docs)
      ensures requestValid && old(Lookup(id)).None? ==> status == 404 && docs == old(docs)
      ensures requestValid && old(Lookup(id)).Some? ==>
        var k := old(Lookup(id)).value;
        if !MayModify(old(docs)[k].addedBy, caller) then status == 403 && docs == old(docs)
        else if !PatchValid(patch) then status == 400 && docs == old(docs)
        else status == 200 && docs == old(docs)[k := Patched(old(docs)[k], patch)]
    {
      if !requestValid {
        return 400;
      }
      var found := Lookup(id);
      if found.None? {
        return 404;
      }
      var k := found.value;
      if docs[k].addedBy.Some? && docs[k].addedBy.value != caller.id && caller.role != "admin" {
        return 403;
      }
      if patch.learning.Some? && !SchemaValid(patch.learning.value) {
        return 400;
      }
      docs := docs[k := Patched(docs[k], patch)];
      status := 200;
    }

    /** `deleteVocabulary`: 404 for an unknown id, 403 by the same rule, else
        the word is only marked inactive. */
    method DeleteVocabulary(id: string, caller: Caller) returns (status: int)
      requires Valid()
      modifies this
      ensures Valid()
      ensures old(Lookup(id)).None? ==> status == 404 && docs == old(docs)
      ensures old(Lookup(id)).Some? ==>
        var k := old(Lookup(id)).value;
        if MayModify(old(docs)[k].addedBy, caller)
        then status == 200 && docs == old(docs)[k := old(docs)[k].(isActive := false)]
        else status == 403 && docs == old(docs)
    {
      var found := Lookup(id);
      if found.None? {
        return 404;
      }
      var k := found.value;
      if docs[k].addedBy.Some? && docs[k].addedBy.value != caller.id && caller.role != "admin" {
        return 403;
      }
      var item := new VocabularyItem.FromDoc(docs[k]);
      item.isActive := false;
      docs := docs[k := item.Doc()];
      status := 200;
    }

    /** `getWordsForReview`: the model's due query, whose cap of 20 a
        `limit` parameter replaces (0 lifting it). */
    method GetWordsForReview(caller: Caller, language: string, limit: Option<nat>, now: int)
      returns (words: seq<VocabularyDoc>)
      ensures forall x :: x in words ==> x in docs && IsDue(x, language, now)
      ensures IsPrefix(words, AllDue(docs, language, now))
      ensures limit.None? ==> words == DueForReview(docs, caller.id, language, now)
      ensures limit.Some? && limit.value > 0 ==> |words| == Min(limit.value, |AllDue(docs, language, now)|)
      ensures limit == Some(0) ==> words == AllDue(docs, language, now)
    {
      var n := if limit.Some? then limit.value else DueForReviewLimit;
      words := Limit(AllDue(docs, language, now), n);
      PrefixMembers(words, AllDue(docs, language, now));
    }

    /** `updateLearningData` (the practice endpoint): 400 unless `correct` is a
        boolean, 404 for an unknown id, then the review is applied and saved;
        the save fails (500, nothing stored) when mastery leaves the schema's
        range. */
    method Practice(id: string, correct: Option<bool>, responseTime: Option<real>, now: int)
      returns (status: int, reply: Option<PracticeReply>)
      requires Valid()
      modifies this
      ensures Valid()
      ensures correct.None? ==> status == 400 && reply.None? && docs == old(docs)
      ensures correct.Some? && old(Lookup(id)).None? ==> status == 404 && reply.None? && docs == old(docs)
      ensures correct.Some? && old(Lookup(id)).Some? ==>
        var k := old(Lookup(id)).value;
        var rt := if responseTime.Some? then responseTime.value else 0.0;
        var d := Reviewed(old(docs)[k].learning, correct.value, rt, now);
        if SchemaValid(d)
        then status == 200 && reply == Some(ReplyFor(d))
             && docs == old(docs)[k := old(docs)[k].(learning := d)]
        else status == 500 && reply.None? && docs == old(docs)
    {
      if correct.None? {
        return 400, None;
      }
      var rt := if responseTime.Some? then responseTime.value else 0.0;
      var found := Lookup(id);
      if found.None? {
        return 404, None;
      }
      var k := found.value;
      var item := new VocabularyItem.FromDoc(docs[k]);
      item.UpdateLearningData(correct.value, rt, now);
      var updated := item.Doc();
      if !SchemaValid(updated.learning) {
        return 500, None;
      }
      docs := docs[k := updated];
      status, reply := 200, Some(ReplyFor(updated.learning));
    }
  }

  /** After a soft delete the word never comes up for review again, in any
      language and at any time. */
  lemma DeletedWordIsNeverDue(docs: seq<VocabularyDoc>, k: nat, userId: string, language: string, now: int)
    requires k < |docs|
    requires forall i, j :: 0 <= i < j < |docs| ==> docs[i].id != docs[j].id
    ensures forall x :: x in DueForReview(docs[k := docs[k].(isActive := false)], userId, language, now)
                        ==> x.id != docs[k].id
  {
    var after := docs[k := docs[k].(isActive := false)];
    forall x | x in DueForReview(after, userId, language, now)
      ensures x.id != docs[k].id
    {
      var i :| 0 <= i < |after| && after[i] == x;
      if i != k {
        assert after[i] == docs[i];
      }
    }
  }

  /** A practice answer at mastery 4.9 is never stored: mastery 5.1 fails
      the schema's `max: 5` and the handler answers 500. */
  lemma PracticeAtFourPointNineFails(doc: VocabularyDoc, rt: real, now: int)
    requires doc.learning.mastery == 49
    ensures !SchemaValid(Reviewed(doc.learning, true, rt, now))
  {
  }
}
