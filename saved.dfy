/** The saved-questions collection, newest first. Saving is keyed on the question's text;
    removal is keyed on its id. */
module Saved {
  import opened Seqs
  import opened Questions

  /** `savedQuestions.some(q => q.text === text)`. */
  predicate IsSaved(saved: seq<Question>, text: string) {
    exists q :: q in saved && q.text == text
  }

  /** The entries whose text is `text`. */
  function WithText(saved: seq<Question>, text: string): (r: seq<Question>)
    ensures forall q :: q in r <==> q in saved && q.text == text
    ensures r == [] <==> !IsSaved(saved, text)
  {
    var r := Filter(saved, (q: Question) => q.text == text);
    assert r != [] ==> r[0] in r;
    r
  }

  /** No two entries share a text. */
  predicate TextsUnique(saved: seq<Question>) {
    forall i, j :: 0 <= i < j < |saved| ==> saved[i].text != saved[j].text
  }

  /** `toggleSave`: when an entry with the same text is saved, every such entry is removed
      and the rest keep their order; otherwise the question is put in front. */
  function ToggleSave(saved: seq<Question>, question: Question): (r: seq<Question>)
    ensures IsSaved(r, question.text) <==> !IsSaved(saved, question.text)
    ensures !IsSaved(saved, question.text) ==> r == [question] + saved
    ensures IsSaved(saved, question.text) ==>
              forall q :: q in r <==> q in saved && q.text != question.text
  {
    if IsSaved(saved, question.text) then
      Filter(saved, (q: Question) => q.text != question.text)
    else
      assert question in [question] + saved;
      [question] + saved
  }

  /** `removeSaved`: keeps exactly the entries whose id differs; an absent id changes nothing. */
  function RemoveSaved(saved: seq<Question>, id: string): (r: seq<Question>)
    ensures forall q :: q in r <==> q in saved && q.id != id
    ensures (forall q :: q in saved ==> q.id != id) ==> r == saved
  {
    var r := Filter(saved, (q: Question) => q.id != id);
    assert (forall q :: q in saved ==> q.id != id) ==> r == saved by {
      if forall q :: q in saved ==> q.id != id {
        FilterKeepsAll(saved, (q: Question) => q.id != id);
      }
    }
    r
  }

  /** Saving a question that was not saved and toggling it again restores the collection. */
  lemma ToggleSaveTwice(saved: seq<Question>, question: Question)
    requires !IsSaved(saved, question.text)
    ensures ToggleSave(ToggleSave(saved, question), question) == saved
  {
    var keep := (q: Question) => q.text != question.text;
    assert Filter([question], keep) == [];
    FilterAppend([question], saved, keep);
    FilterKeepsAll(saved, keep);
  }

  /** After saving a question that was not saved, exactly one entry has its text. */
  lemma SaveOnce(saved: seq<Question>, question: Question)
    requires !IsSaved(saved, question.text)
    ensures WithText(ToggleSave(saved, question), question.text) == [question]
  {
    var hasText := (q: Question) => q.text == question.text;
    FilterAppend([question], saved, hasText);
    FilterDropsAll(saved, hasText);
  }

  /** Toggling keeps the texts of the collection unique. */
  lemma ToggleSaveKeepsTextsUnique(saved: seq<Question>, question: Question)
    requires TextsUnique(saved)
    ensures TextsUnique(ToggleSave(saved, question))
  {
    var differ := (a: Question, b: Question) => a.text != b.text;
    if IsSaved(saved, question.text) {
      assert Pairwise(saved, differ);
      FilterPairwise(saved, (q: Question) => q.text != question.text, differ);
    } else {
      var r := [question] + saved;
      forall i, j | 0 <= i < j < |r| ensures r[i].text != r[j].text {
        if i == 0 { assert r[j] in saved; }
      }
    }
  }

  /** Removing by id keeps the texts of the collection unique. */
  lemma RemoveSavedKeepsTextsUnique(saved: seq<Question>, id: string)
    requires TextsUnique(saved)
    ensures TextsUnique(RemoveSaved(saved, id))
  {
    var differ := (a: Question, b: Question) => a.text != b.text;
    assert Pairwise(saved, differ);
    FilterPairwise(saved, (q: Question) => q.id != id, differ);
  }

  /** Unsaving a question from a collection with unique texts removes just the entry with
      its text and keeps the others in their order. */
  lemma ToggleSaveRemovesInPlace(saved: seq<Question>, question: Question, k: nat)
    requires TextsUnique(saved) && k < |saved| && saved[k].text == question.text
    ensures ToggleSave(saved, question) == saved[..k] + saved[k + 1..]
  {
    assert IsSaved(saved, question.text) by { assert saved[k] in saved; }
    FilterDropsOne(saved, k, (q: Question) => q.text != question.text);
  }

  /** Removing the only entry with a given id splices it out and keeps the others in order. */
  lemma RemoveSavedInPlace(saved: seq<Question>, k: nat)
    requires k < |saved|
    requires forall i :: 0 <= i < |saved| && i != k ==> saved[i].id != saved[k].id
    ensures RemoveSaved(saved, saved[k].id) == saved[..k] + saved[k + 1..]
  {
    FilterDropsOne(saved, k, (q: Question) => q.id != saved[k].id);
  }
}
