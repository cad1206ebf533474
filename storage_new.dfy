/**
 * The alternate in-memory store of server/storage-new.ts. It follows the
 * `shloks` table shape of shared/schema.ts: every verse column may be null,
 * and verses are grouped by a chapter number instead of a chapter id.
 */
module StorageNew {
  import opened Wrappers
  import opened Text
  import opened Seqs
  import opened Schema
  import Storage

  /** A row of the `shloks` table; `None` is a null column. */
  datatype Shlok = Shlok(
    id: int, chapterNumber: Option<int>, verse: Option<int>,
    sanskrit: Option<string>, translation: Option<string>, explanation: Option<string>,
    tags: Option<string>, chapter: Option<string>, wordMeaning: Option<string>,
    createdAt: Option<string>)

  /** A row of the `conversations` table; the step, progress and verse columns may be null. */
  datatype Conversation = Conversation(
    id: int, sessionId: string, messages: seq<Message>,
    currentStep: Option<int>, progressPercentage: Option<int>,
    selectedShlokId: Option<int>, createdAt: string)

  /** The insert shape: a conversation without its id. */
  datatype InsertConversation = InsertConversation(
    sessionId: string, messages: seq<Message>,
    currentStep: Option<int>, progressPercentage: Option<int>,
    selectedShlokId: Option<int>, createdAt: string)

  /**
   * A `Partial<Conversation>`: `Some` for each key the object carries. A nullable
   * column can be carried with the value `null`, hence the nested options.
   */
  datatype ConversationUpdate = ConversationUpdate(
    id: Option<int>, sessionId: Option<string>, messages: Option<seq<Message>>,
    currentStep: Option<Option<int>>, progressPercentage: Option<Option<int>>,
    selectedShlokId: Option<Option<int>>, createdAt: Option<string>)

  /**
   * `{ id, ...ins, selectedShlokId: ins.selectedShlokId || null }`: every insert
   * field is copied as it is, except that a falsy verse id becomes null.
   */
  function NewConversation(id: int, ins: InsertConversation): (c: Conversation)
    ensures c.id == id && c.sessionId == ins.sessionId
    ensures c.messages == ins.messages && c.createdAt == ins.createdAt
    ensures c.currentStep == ins.currentStep && c.progressPercentage == ins.progressPercentage
    ensures c.selectedShlokId == None <==> ins.selectedShlokId == None || ins.selectedShlokId == Some(0)
    ensures c.selectedShlokId != None ==> c.selectedShlokId == ins.selectedShlokId
  {
    Conversation(id, ins.sessionId, ins.messages, ins.currentStep, ins.progressPercentage,
                 Storage.OrNull(ins.selectedShlokId), ins.createdAt)
  }

  /** `{ ...c, ...u }`: every key `u` carries replaces that field of `c`, the others stay. */
  function Merge(c: Conversation, u: ConversationUpdate): (r: Conversation)
    ensures r.id == (if u.id.Some? then u.id.value else c.id)
    ensures r.sessionId == (if u.sessionId.Some? then u.sessionId.value else c.sessionId)
    ensures r.messages == (if u.messages.Some? then u.messages.value else c.messages)
    ensures r.currentStep == (if u.currentStep.Some? then u.currentStep.value else c.currentStep)
    ensures r.progressPercentage == (if u.progressPercentage.Some? then u.progressPercentage.value else c.progressPercentage)
    ensures r.selectedShlokId == (if u.selectedShlokId.Some? then u.selectedShlokId.value else c.selectedShlokId)
    ensures r.createdAt == (if u.createdAt.Some? then u.createdAt.value else c.createdAt)
  {
    Conversation(u.id.GetOr(c.id), u.sessionId.GetOr(c.sessionId), u.messages.GetOr(c.messages),
                 u.currentStep.GetOr(c.currentStep), u.progressPercentage.GetOr(c.progressPercentage),
                 u.selectedShlokId.GetOr(c.selectedShlokId), u.createdAt.GetOr(c.createdAt))
  }

  /** Applying the same update twice is the same as applying it once. */
  lemma MergeIdempotent(c: Conversation, u: ConversationUpdate)
    ensures Merge(Merge(c, u), u) == Merge(c, u)
  {
  }

  /** The test `getShloksByChapter` applies: the chapter-number column, not a chapter id. */
  function ByChapterNumber(all: seq<Shlok>, chapterNumber: int): (r: seq<Shlok>)
    ensures forall s :: s in r <==> s in all && s.chapterNumber == Some(chapterNumber)
    ensures IsSubsequence(r, all)
  {
    Filter(all, (s: Shlok) => s.chapterNumber == Some(chapterNumber))
  }

  /** `field?.toLowerCase().includes(term)`: a null column never matches. */
  predicate FieldIncludes(field: Option<string>, term: string) {
    field.Some? && Includes(Lower(field.value), term)
  }

  /** The test `searchShloks` applies, for a search term that is already lower-cased. */
  predicate MatchesTerm(s: Shlok, term: string) {
    FieldIncludes(s.sanskrit, term) || FieldIncludes(s.translation, term)
    || FieldIncludes(s.explanation, term) || FieldIncludes(s.tags, term)
  }

  /**
   * `searchShloks(query)` over the shloks in store order: exactly those whose
   * sanskrit, translation, explanation or tags contain the query, ignoring case.
   */
  function Search(all: seq<Shlok>, query: string): (r: seq<Shlok>)
    ensures forall s :: s in r <==> s in all && MatchesTerm(s, Lower(query))
    ensures IsSubsequence(r, all)
  {
    Filter(all, (s: Shlok) => MatchesTerm(s, Lower(query)))
  }

  /** A shlok whose four searched columns are all null is found by no query, not even the empty one. */
  lemma SearchSkipsEmptyShlok(all: seq<Shlok>, s: Shlok, query: string)
    requires s.sanskrit == None && s.translation == None && s.explanation == None && s.tags == None
    ensures s !in Search(all, query)
  {
  }

  /*
   * The seed data: the two chapters of server/storage.ts and three verses of
   * chapter 2, each stamped with the time it was built. Verses 47 and 20 carry
   * the Sanskrit, translation and purport texts server/storage.ts seeds, here
   * in the sanskrit, translation and explanation columns. Long texts are
   * written as concatenations of short literals; the strings are the same.
   */

  function Shlok1(id: int, createdAt: string): Shlok {
    Shlok(id, Some(2), Some(47),
      sanskrit := Some(Storage.Shloka1Sanskrit()),
      translation := Some(Storage.Shloka1Translation()),
      explanation := Some(Storage.Shloka1Purport()),
      tags := Some(Shlok1Tags()),
      chapter := Some("Chapter 2"),
      wordMeaning := Some(Shlok1WordMeaning()),
      createdAt := Some(createdAt))
  }

  function Shlok1Tags(): string {
    "duty, action, " + "detachment, " + "karma-yoga"
  }

  function Shlok1WordMeaning(): string {
    "karmani - in " + "prescribed " + "duties; eva - " + "certainly; " + "adhikarah - "
    + "right; te - of " + "you; ma - " + "never; phalesu " + "- in the " + "fruits; "
    + "kadacana - at " + "any time"
  }

  function Shlok2(id: int, createdAt: string): Shlok {
    Shlok(id, Some(2), Some(20),
      sanskrit := Some(Storage.Shloka2Sanskrit()),
      translation := Some(Storage.Shloka2Translation()),
      explanation := Some(Storage.Shloka2Purport()),
      tags := Some("soul, eternity, " + "death, rebirth"),
      chapter := Some("Chapter 2"),
      wordMeaning := Some(Shlok2WordMeaning()),
      createdAt := Some(createdAt))
  }

  function Shlok2WordMeaning(): string {
    "na - never; " + "jayate - takes " + "birth; mriyate " + "- dies; va - "
    + "either; kadacit " + "- at any time; " + "na - never; " + "ayam - this"
  }

  function Shlok3(id: int, createdAt: string): Shlok {
    Shlok(id, Some(2), Some(13),
      sanskrit := Some(Shlok3Sanskrit()),
      translation := Some(Shlok3Translation()),
      explanation := Some(Shlok3Explanation()),
      tags := Some("body, soul, " + "change, wisdom"),
      chapter := Some("Chapter 2"),
      wordMeaning := Some(Shlok3WordMeaning()),
      createdAt := Some(createdAt))
  }

  function Shlok3Sanskrit(): string {
    "देहिनोऽस्मिन्यथा " + "देहे कौमारं " + "यौवनं जरा। तथा "
    + "देहान्तरप्राप्तिर्धीरस्तत्र " + "न मुह्यति॥"
  }

  function Shlok3Translation(): string {
    "As the embodied " + "soul " + "continuously " + "passes, in this " + "body, from "
    + "boyhood to " + "youth to old " + "age, the soul " + "similarly " + "passes into "
    + "another body at " + "death. A sober " + "person is not " + "bewildered by "
    + "such a change."
  }

  function Shlok3Explanation(): string {
    "Since every " + "living entity " + "is an " + "individual " + "soul, each is "
    + "changing his " + "body every " + "moment, " + "manifesting " + "sometimes as a "
    + "child, " + "sometimes as a " + "youth, and " + "sometimes as an " + "old man."
  }

  function Shlok3WordMeaning(): string {
    "dehinah - of " + "the embodied; " + "asmin - in " + "this; yatha - " + "as; dehe - in "
    + "the body; " + "kaumaram - " + "boyhood; " + "yauvanam - " + "youth; jara - "
    + "old age"
  }

  function SeedShloks(t1: string, t2: string, t3: string): map<int, Shlok> {
    map[1 := Shlok1(1, t1), 2 := Shlok2(2, t2), 3 := Shlok3(3, t3)]
  }

  /** The shloks in the order `Array.from(shloks.values())` gives them after seeding. */
  function SeedShlokList(t1: string, t2: string, t3: string): seq<Shlok> {
    [Shlok1(1, t1), Shlok2(2, t2), Shlok3(3, t3)]
  }

  /** When every shlok carries chapter number `k`, asking for `k` gives them all and any other number none. */
  lemma ByChapterNumberUniform(all: seq<Shlok>, k: int, chapterNumber: int)
    requires forall i :: 0 <= i < |all| ==> all[i].chapterNumber == Some(k)
    ensures ByChapterNumber(all, chapterNumber) == if chapterNumber == k then all else []
  {
    if chapterNumber == k {
      FilterAll(all, (s: Shlok) => s.chapterNumber == Some(chapterNumber));
    } else {
      FilterNone(all, (s: Shlok) => s.chapterNumber == Some(chapterNumber));
    }
  }

  /** Two matching shloks are returned in their store order. */
  lemma SearchKeepsOrder(all: seq<Shlok>, query: string, i: int, j: int)
    requires 0 <= i < j < |all| && MatchesTerm(all[i], Lower(query)) && MatchesTerm(all[j], Lower(query))
    ensures exists m, n :: 0 <= m < n < |Search(all, query)|
                           && Search(all, query)[m] == all[i] && Search(all, query)[n] == all[j]
  {
    var p := (s: Shlok) => MatchesTerm(s, Lower(query));
    assert Search(all, query) == Filter(all, p);
    FilterKeepsOrder(all, p, i, j);
  }

  /** The tags of verse 20 start with "soul". */
  lemma Shlok2MatchesSoul(t2: string)
    ensures MatchesTerm(Shlok2(2, t2), "soul")
  {
    IncludesLowerHead("soul, eternity, ", "death, rebirth", "soul", 0);
  }

  /** The tags of verse 13 carry "soul" after "body, ". */
  lemma Shlok3MatchesSoul(t3: string)
    ensures MatchesTerm(Shlok3(3, t3), "soul")
  {
    IncludesLowerHead("body, soul, ", "change, wisdom", "soul", 6);
  }

  /** The Sanskrit text of verse 47 does not hold "soul": it is written in Devanagari. */
  lemma Shlok1SanskritMissesSoul()
    ensures !Includes(Lower(Storage.Shloka1Sanskrit()), "soul")
  {
    var s := "कर्मण्येवाधिकारस्ते ";
    NoPairAppend(s, "मा फलेषु कदाचन। ", 's', 'o', 'S', 'O');
    s := s + "मा फलेषु कदाचन। ";
    NoPairAppend(s, "मा ", 's', 'o', 'S', 'O');
    s := s + "मा ";
    NoPairAppend(s, "कर्मफलहेतुर्भूर्मा ", 's', 'o', 'S', 'O');
    s := s + "कर्मफलहेतुर्भूर्मा ";
    NoPairAppend(s, "ते ", 's', 'o', 'S', 'O');
    s := s + "ते ";
    NoPairAppend(s, "सङ्गोऽस्त्वकर्मणि॥", 's', 'o', 'S', 'O');
    s := s + "सङ्गोऽस्त्वकर्मणि॥";
    NoPairExcludes(Storage.Shloka1Sanskrit(), "soul", 0);
  }

  /** The tags of verse 47 do not hold "soul": they have no `so` in either case. */
  lemma Shlok1TagsMissSoul()
    ensures !Includes(Lower(Shlok1Tags()), "soul")
  {
    var s := "duty, action, ";
    NoPairAppend(s, "detachment, ", 's', 'o', 'S', 'O');
    s := s + "detachment, ";
    NoPairAppend(s, "karma-yoga", 's', 'o', 'S', 'O');
    s := s + "karma-yoga";
    NoPairExcludes(Shlok1Tags(), "soul", 0);
  }

  /** Verse 47 does not match "soul": none of its four searched columns holds it. */
  lemma Shlok1MissesSoul(id: int, createdAt: string)
    ensures !MatchesTerm(Shlok1(id, createdAt), "soul")
  {
    Shlok1SanskritMissesSoul();
    Storage.Shloka1TranslationMissesSoul();
    Storage.Shloka1PurportMissesSoul();
    Shlok1TagsMissSoul();
  }

  /** "soul" finds verse 20 and then verse 13, which carry the word in their tags, and nothing else. */
  lemma SeedSearchSoul(t1: string, t2: string, t3: string)
    ensures Search(SeedShlokList(t1, t2, t3), "soul") == [Shlok2(2, t2), Shlok3(3, t3)]
  {
    assert Lower("soul") == "soul";
    Shlok1MissesSoul(1, t1);
    Shlok2MatchesSoul(t2);
    Shlok3MatchesSoul(t3);
    var p := (s: Shlok) => MatchesTerm(s, Lower("soul"));
    assert !p(Shlok1(1, t1)) && p(Shlok2(2, t2)) && p(Shlok3(3, t3));
    FilterSkipsFirst(Shlok1(1, t1), Shlok2(2, t2), Shlok3(3, t3), p);
    assert Search(SeedShlokList(t1, t2, t3), "soul") == Filter(SeedShlokList(t1, t2, t3), p);
  }

  /** `MemStorage` of server/storage-new.ts. */
  class MemStorage {
    var chapters: map<int, Chapter>
    var chapterOrder: seq<int>
    var shloks: map<int, Shlok>
    var shlokOrder: seq<int>
    var conversations: map<string, Conversation>
    var currentChapterId: int
    var currentShlokId: int
    var currentConversationId: int

    /** Chapters 1 and 2 under ids 1 and 2, in that insertion order. */
    ghost predicate ChaptersSeeded()
      reads this
    {
      && chapters.Keys == {1, 2} && chapterOrder == [1, 2]
      && (forall id :: id in chapters ==> chapters[id].id == id && chapters[id].chapterNumber == id)
    }

    /** Verses 47, 20 and 13 of chapter number 2 under ids 1, 2 and 3, in that insertion order. */
    ghost predicate ShloksSeeded()
      reads this
    {
      && shloks.Keys == {1, 2, 3} && shlokOrder == [1, 2, 3]
      && (forall id :: id in shloks ==> shloks[id].id == id && shloks[id].chapterNumber == Some(2))
      && shloks[1].verse == Some(47) && shloks[2].verse == Some(20) && shloks[3].verse == Some(13)
    }

    /**
     * The seeded reference data keeps its shape, since no operation writes it
     * after construction, and the conversation counter stays positive.
     */
    ghost predicate Valid()
      reads this
    {
      && ChaptersSeeded() && ShloksSeeded()
      && currentChapterId == 3 && currentShlokId == 4
      && currentConversationId >= 1
    }

    /** The three timestamps are the values `new Date().toISOString()` gives while seeding. */
    constructor(t1: string, t2: string, t3: string)
      ensures Valid()
      ensures chapters == Storage.SeedChapters() && shloks == SeedShloks(t1, t2, t3)
      ensures conversations == map[] && currentConversationId == 1
    {
      chapters, chapterOrder := map[], [];
      shloks, shlokOrder := map[], [];
      conversations := map[];
      currentChapterId, currentShlokId, currentConversationId := 1, 1, 1;
      new;
      SeedData(t1, t2, t3);
    }

    /**
     * `seedData`: two chapters, then three verses of chapter number 2, each
     * record taking the next id of its counter. The halves are separate
     * methods only to keep each proof small.
     */
    method SeedData(t1: string, t2: string, t3: string)
      requires chapters == map[] && chapterOrder == [] && shloks == map[] && shlokOrder == []
      requires currentChapterId == 1 && currentShlokId == 1
      modifies this`chapters, this`chapterOrder, this`shloks, this`shlokOrder
      modifies this`currentChapterId, this`currentShlokId
      ensures chapters == Storage.SeedChapters() && ChaptersSeeded()
      ensures shloks == SeedShloks(t1, t2, t3) && ShloksSeeded()
      ensures currentChapterId == 3 && currentShlokId == 4
    {
      SeedChapterData();
      SeedShlokData(t1, t2, t3);
    }

    /** The chapter half of `seedData`. */
    method SeedChapterData()
      requires chapters == map[] && chapterOrder == [] && currentChapterId == 1
      modifies this`chapters, this`chapterOrder, this`currentChapterId
      ensures chapters == Storage.SeedChapters() && ChaptersSeeded()
      ensures currentChapterId == 3
    {
      var chapter1 := Storage.Chapter1(currentChapterId);
      currentChapterId := currentChapterId + 1;
      var chapter2 := Storage.Chapter2(currentChapterId);
      currentChapterId := currentChapterId + 1;
      chapters, chapterOrder := chapters[chapter1.id := chapter1], InsertKey(chapterOrder, chapter1.id);
      chapters, chapterOrder := chapters[chapter2.id := chapter2], InsertKey(chapterOrder, chapter2.id);
    }

    /** The verse half of `seedData`. */
    method SeedShlokData(t1: string, t2: string, t3: string)
      requires shloks == map[] && shlokOrder == [] && currentShlokId == 1
      modifies this`shloks, this`shlokOrder, this`currentShlokId
      ensures shloks == SeedShloks(t1, t2, t3) && ShloksSeeded()
      ensures currentShlokId == 4
    {
      var shlok1 := Shlok1(currentShlokId, t1);
      currentShlokId := currentShlokId + 1;
      var shlok2 := Shlok2(currentShlokId, t2);
      currentShlokId := currentShlokId + 1;
      var shlok3 := Shlok3(currentShlokId, t3);
      currentShlokId := currentShlokId + 1;
      shloks, shlokOrder := shloks[shlok1.id := shlok1], InsertKey(shlokOrder, shlok1.id);
      shloks, shlokOrder := shloks[shlok2.id := shlok2], InsertKey(shlokOrder, shlok2.id);
      shloks, shlokOrder := shloks[shlok3.id := shlok3], InsertKey(shlokOrder, shlok3.id);
      assert shlokOrder == [1, 2, 3];
    }

    /** `Array.from(shloks.values())`: every stored shlok once, in insertion order. */
    function ShlokList(): (r: seq<Shlok>)
      reads this
      requires Valid()
      ensures r == [shloks[1], shloks[2], shloks[3]]
      ensures forall s :: s in r <==> s in shloks.Values
    {
      MapValues(shlokOrder, shloks)
    }

    /** `getShloksByChapter`: the stored verses with that chapter number, in insertion order. */
    function GetShloksByChapter(chapterNumber: int): (r: seq<Shlok>)
      reads this
      requires Valid()
      ensures forall s :: s in r <==> s in shloks.Values && s.chapterNumber == Some(chapterNumber)
      ensures IsSubsequence(r, ShlokList())
      ensures r == if chapterNumber == 2 then ShlokList() else []
    {
      ByChapterNumberUniform(ShlokList(), 2, chapterNumber);
      ByChapterNumber(ShlokList(), chapterNumber)
    }

    /** `searchShloks`: the stored verses whose searched columns contain the query, ignoring case, in insertion order. */
    function SearchShloks(query: string): (r: seq<Shlok>)
      reads this
      requires Valid()
      ensures forall s :: s in r <==> s in shloks.Values && MatchesTerm(s, Lower(query))
      ensures IsSubsequence(r, ShlokList())
    {
      Search(ShlokList(), query)
    }

    /**
     * Takes the current counter as the id and advances it, then stores the new
     * record under its session id, replacing any earlier one.
     */
    method CreateConversation(ins: InsertConversation) returns (c: Conversation)
      requires Valid()
      modifies this`conversations, this`currentConversationId
      ensures Valid()
      ensures c == NewConversation(old(currentConversationId), ins)
      ensures currentConversationId == old(currentConversationId) + 1
      ensures conversations == old(conversations)[ins.sessionId := c]
    {
      c := NewConversation(currentConversationId, ins);
      currentConversationId := currentConversationId + 1;
      conversations := conversations[c.sessionId := c];
    }

    /** `conversations.get(sessionId)`. */
    function GetConversation(sessionId: string): (r: Option<Conversation>)
      reads this
      ensures r.Some? <==> sessionId in conversations
      ensures r.Some? ==> r.value == conversations[sessionId]
    {
      if sessionId in conversations then Some(conversations[sessionId]) else None
    }

    /**
     * Throws for an unknown session and changes nothing; otherwise merges the
     * update into the stored record, stores it and returns it.
     */
    method UpdateConversation(sessionId: string, updates: ConversationUpdate) returns (r: Result<Conversation>)
      requires Valid()
      modifies this`conversations
      ensures Valid()
      ensures sessionId !in old(conversations) ==>
                r == Err("Conversation not found: " + sessionId) && conversations == old(conversations)
      ensures sessionId in old(conversations) ==>
                && r == Ok(Merge(old(conversations)[sessionId], updates))
                && conversations == old(conversations)[sessionId := r.value]
    {
      var existing := GetConversation(sessionId);
      if existing.None? {
        return Err("Conversation not found: " + sessionId);
      }
      var updated := Merge(existing.value, updates);
      conversations := conversations[sessionId := updated];
      r := Ok(updated);
    }
  }
}
