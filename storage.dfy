/**
 * The in-memory store of server/storage.ts: chapters and shlokas seeded once,
 * and conversations kept under their session id.
 */
module Storage {
  import opened Wrappers
  import opened Text
  import opened Seqs
  import opened Schema

  datatype WordMeaning = WordMeaning(sanskrit: string, english: string)

  /** A verse with its transliteration, translation and optional purport. */
  datatype Shloka = Shloka(
    id: int, chapterId: int, verseNumber: int,
    sanskrit: string, transliteration: string, translation: string,
    purport: Option<string>, wordMeanings: seq<WordMeaning>)

  datatype Conversation = Conversation(
    id: int, sessionId: string, messages: seq<Message>,
    currentStep: int, progressPercentage: int,
    selectedShlokaId: Option<int>, createdAt: string)

  /** The argument of `createConversation`; `None` is a field that is `undefined` or `null`. */
  datatype InsertConversation = InsertConversation(
    sessionId: string, messages: seq<Message>,
    currentStep: Option<int>, progressPercentage: Option<int>,
    selectedShlokaId: Option<int>, createdAt: string)

  /** A `Partial<Conversation>`: `Some` for each key the object carries. */
  datatype ConversationUpdate = ConversationUpdate(
    id: Option<int>, sessionId: Option<string>, messages: Option<seq<Message>>,
    currentStep: Option<int>, progressPercentage: Option<int>,
    selectedShlokaId: Option<Option<int>>, createdAt: Option<string>)

  const NoChanges := ConversationUpdate(None, None, None, None, None, None, None)

  /** `x || 0` on an optional number: `undefined`, `null` and `0` all give 0. */
  function OrZero(x: Option<int>): (r: int)
    ensures r == 0 <==> x.None? || x.value == 0
    ensures r != 0 ==> x == Some(r)
  {
    x.GetOr(0)
  }

  /** `x || null` on an optional id: the falsy id `0` becomes `null` as well. */
  function OrNull(x: Option<int>): (r: Option<int>)
    ensures r.None? <==> x.None? || x.value == 0
    ensures r.Some? ==> r == x
  {
    if x == Some(0) then None else x
  }

  /** The record `createConversation` builds from `ins` when the id counter stands at `id`. */
  function NewConversation(id: int, ins: InsertConversation): (c: Conversation)
    ensures c.id == id && c.sessionId == ins.sessionId
    ensures c.messages == ins.messages && c.createdAt == ins.createdAt
    ensures c.currentStep == 0 <==> ins.currentStep == None || ins.currentStep == Some(0)
    ensures c.currentStep != 0 ==> ins.currentStep == Some(c.currentStep)
    ensures c.progressPercentage == 0 <==> ins.progressPercentage == None || ins.progressPercentage == Some(0)
    ensures c.progressPercentage != 0 ==> ins.progressPercentage == Some(c.progressPercentage)
    ensures c.selectedShlokaId == None <==> ins.selectedShlokaId == None || ins.selectedShlokaId == Some(0)
    ensures c.selectedShlokaId != None ==> c.selectedShlokaId == ins.selectedShlokaId
  {
    Conversation(id, ins.sessionId, ins.messages,
                 OrZero(ins.currentStep), OrZero(ins.progressPercentage),
                 OrNull(ins.selectedShlokaId), ins.createdAt)
  }

  /** `{ ...c, ...u }`: every key `u` carries replaces that field of `c`, the others stay. */
  function Merge(c: Conversation, u: ConversationUpdate): (r: Conversation)
    ensures r.id == (if u.id.Some? then u.id.value else c.id)
    ensures r.sessionId == (if u.sessionId.Some? then u.sessionId.value else c.sessionId)
    ensures r.messages == (if u.messages.Some? then u.messages.value else c.messages)
    ensures r.currentStep == (if u.currentStep.Some? then u.currentStep.value else c.currentStep)
    ensures r.progressPercentage == (if u.progressPercentage.Some? then u.progressPercentage.value else c.progressPercentage)
    ensures r.selectedShlokaId == (if u.selectedShlokaId.Some? then u.selectedShlokaId.value else c.selectedShlokaId)
    ensures r.createdAt == (if u.createdAt.Some? then u.createdAt.value else c.createdAt)
  {
    Conversation(u.id.GetOr(c.id), u.sessionId.GetOr(c.sessionId), u.messages.GetOr(c.messages),
                 u.currentStep.GetOr(c.currentStep), u.progressPercentage.GetOr(c.progressPercentage),
                 u.selectedShlokaId.GetOr(c.selectedShlokaId), u.createdAt.GetOr(c.createdAt))
  }

  /** An update that carries no key leaves the record as it is. */
  lemma MergeNoChanges(c: Conversation)
    ensures Merge(c, NoChanges) == c
  {
  }

  /** Applying the same update twice is the same as applying it once. */
  lemma MergeIdempotent(c: Conversation, u: ConversationUpdate)
    ensures Merge(Merge(c, u), u) == Merge(c, u)
  {
  }

  /** The test `getShlokasByChapter` applies. */
  function ByChapter(all: seq<Shloka>, chapterId: int): (r: seq<Shloka>)
    ensures forall s :: s in r <==> s in all && s.chapterId == chapterId
    ensures IsSubsequence(r, all)
  {
    Filter(all, (s: Shloka) => s.chapterId == chapterId)
  }

  /** The test `searchShlokas` applies, for a search term that is already lower-cased. */
  predicate MatchesTerm(s: Shloka, term: string) {
    || Includes(Lower(s.translation), term)
    || (s.purport.Some? && Includes(Lower(s.purport.value), term))
    || Includes(Lower(s.transliteration), term)
  }

  /**
   * `searchShlokas(query)` over the shlokas in store order: exactly those whose
   * translation, purport or transliteration contains the query, ignoring case.
   */
  function Search(all: seq<Shloka>, query: string): (r: seq<Shloka>)
    ensures forall s :: s in r <==> s in all && MatchesTerm(s, Lower(query))
    ensures IsSubsequence(r, all)
  {
    Filter(all, (s: Shloka) => MatchesTerm(s, Lower(query)))
  }

  /** The empty query is contained in every text, so it returns every shloka. */
  lemma SearchEmptyQuery(all: seq<Shloka>)
    ensures Search(all, "") == all
  {
    assert Lower("") == "";
    FilterAll(all, (s: Shloka) => MatchesTerm(s, Lower("")));
  }

  /*
   * The seed data. Long texts are written as concatenations of short literals,
   * which the verifier handles far more cheaply; the strings are the same. Each
   * text of a verse is a function of its own, so that a proof about one text
   * does not have to take in the others.
   */

  function Chapter1(id: int): Chapter {
    Chapter(id, 1,
      "Observing the " + "Armies on the " + "Battlefield of " + "Kuruksetra",
      Some("Arjuna's " + "dilemma and " + "despondency on " + "the battlefield"))
  }

  function Chapter2(id: int): Chapter {
    Chapter(id, 2,
      "Contents of the " + "Gita Summarized",
      Some("The eternal " + "soul and the " + "temporary body"))
  }

  function Shloka1(id: int, chapterId: int): Shloka {
    Shloka(id, chapterId, 47,
      Shloka1Sanskrit(), Shloka1Transliteration(), Shloka1Translation(),
      Some(Shloka1Purport()), Shloka1WordMeanings())
  }

  function Shloka1Sanskrit(): string {
    "कर्मण्येवाधिकारस्ते " + "मा फलेषु कदाचन। " + "मा " + "कर्मफलहेतुर्भूर्मा " + "ते "
    + "सङ्गोऽस्त्वकर्मणि॥"
  }

  /** Grouped so that the opening words stand apart as a literal of their own. */
  function Shloka1Transliteration(): string {
    "karmany " + (
      "evadhikaras te " + "ma phalesu " + "kadacana ma " + "karma-phala-hetur "
      + "bhur ma te " + "sango 'stv " + "akarmani")
  }

  function Shloka1Translation(): string {
    "You have a " + "right to " + "perform your " + "prescribed " + "duty, but never "
    + "to the fruits " + "of action. " + "Never consider " + "yourself the "
    + "cause of the " + "results of your " + "activities, and " + "never be "
    + "attached to not " + "doing your duty."
  }

  function Shloka1Purport(): string {
    "There are three " + "considerations " + "here: " + "prescribed " + "duties, "
    + "capriciously " + "work, and " + "inaction. " + "Prescribed " + "duties are "
    + "activities " + "enjoined in " + "terms of one's " + "acquired modes "
    + "of material " + "nature."
  }

  function Shloka1WordMeanings(): seq<WordMeaning> {
    [ WordMeaning("karmani", "in prescribed duties"), WordMeaning("eva", "certainly"),
      WordMeaning("adhikarah", "right"), WordMeaning("te", "of you"),
      WordMeaning("ma", "never"), WordMeaning("phalesu", "in the fruits"),
      WordMeaning("kadacana", "at any time"), WordMeaning("ma", "never"),
      WordMeaning("karma-phala", "in the result of the work"),
      WordMeaning("hetuh", "cause"), WordMeaning("bhuh", "become"),
      WordMeaning("ma", "never"), WordMeaning("te", "of you"),
      WordMeaning("sangah", "attachment"), WordMeaning("astu", "be there"),
      WordMeaning("akarmani", "in not doing") ]
  }

  function Shloka2(id: int, chapterId: int): Shloka {
    Shloka(id, chapterId, 20,
      Shloka2Sanskrit(), Shloka2Transliteration(), Shloka2Translation(),
      Some(Shloka2Purport()), Shloka2WordMeanings())
  }

  function Shloka2Sanskrit(): string {
    "न जायते म्रियते " + "वा कदाचिन्नायं " + "भूत्वा भविता वा " + "न भूयः। अजो " + "नित्यः "
    + "शाश्वतोऽयं " + "पुराणो न हन्यते " + "हन्यमाने शरीरे॥"
  }

  function Shloka2Transliteration(): string {
    "na jayate " + "mriyate va " + "kadacin nayam " + "bhutva bhavita " + "va na bhuyah "
    + "ajo nityah " + "sasvato 'yam " + "purano na " + "hanyate " + "hanyamane sarire"
  }

  /** Grouped so that the opening words stand apart as a literal of their own. */
  function Shloka2Translation(): string {
    "For the soul " + (
      "there is " + "neither birth " + "nor death. It " + "is not slain " + "when the body "
      + "is slain.")
  }

  function Shloka2Purport(): string {
    "Qualitatively, " + "the small " + "atomic " + "fragmental part " + "of the Supreme "
    + "Spirit is one " + "with the " + "Supreme."
  }

  function Shloka2WordMeanings(): seq<WordMeaning> {
    [ WordMeaning("na", "never"), WordMeaning("jayate", "takes birth"),
      WordMeaning("mriyate", "dies"), WordMeaning("va", "either"),
      WordMeaning("kadacit", "at any time"), WordMeaning("na", "never"),
      WordMeaning("ayam", "this"), WordMeaning("bhutva", "having come into being"),
      WordMeaning("bhavita", "will come to be"), WordMeaning("va", "or"),
      WordMeaning("na", "not"), WordMeaning("bhuyah", "or is again"),
      WordMeaning("ajah", "unborn"), WordMeaning("nityah", "eternal"),
      WordMeaning("sasvato", "permanent"), WordMeaning("ayam", "this"),
      WordMeaning("puranah", "the oldest"), WordMeaning("na", "never"),
      WordMeaning("hanyate", "is killed"), WordMeaning("hanyamane", "being killed"),
      WordMeaning("sarire", "the body") ]
  }

  function SeedChapters(): map<int, Chapter> {
    map[1 := Chapter1(1), 2 := Chapter2(2)]
  }

  function SeedShlokas(): map<int, Shloka> {
    map[1 := Shloka1(1, 2), 2 := Shloka2(2, 2)]
  }

  /** The shlokas in the order `Array.from(shlokas.values())` gives them after seeding. */
  function SeedShlokaList(): seq<Shloka> {
    [Shloka1(1, 2), Shloka2(2, 2)]
  }

  /** When every shloka belongs to chapter `k`, asking for `k` gives them all and any other id none. */
  lemma ByChapterUniform(all: seq<Shloka>, k: int, chapterId: int)
    requires forall i :: 0 <= i < |all| ==> all[i].chapterId == k
    ensures ByChapter(all, chapterId) == if chapterId == k then all else []
  {
    if chapterId == k {
      FilterAll(all, (s: Shloka) => s.chapterId == chapterId);
    } else {
      FilterNone(all, (s: Shloka) => s.chapterId == chapterId);
    }
  }

  /** The translation of verse 47 does not hold "soul": it has no `so` in either case. */
  lemma Shloka1TranslationMissesSoul()
    ensures !Includes(Lower(Shloka1Translation()), "soul")
  {
    var s := "You have a ";
    NoPairAppend(s, "right to ", 's', 'o', 'S', 'O');
    s := s + "right to ";
    NoPairAppend(s, "perform your ", 's', 'o', 'S', 'O');
    s := s + "perform your ";
    NoPairAppend(s, "prescribed ", 's', 'o', 'S', 'O');
    s := s + "prescribed ";
    NoPairAppend(s, "duty, but never ", 's', 'o', 'S', 'O');
    s := s + "duty, but never ";
    NoPairAppend(s, "to the fruits ", 's', 'o', 'S', 'O');
    s := s + "to the fruits ";
    NoPairAppend(s, "of action. ", 's', 'o', 'S', 'O');
    s := s + "of action. ";
    NoPairAppend(s, "Never consider ", 's', 'o', 'S', 'O');
    s := s + "Never consider ";
    Shloka1TranslationEndLacksSo(s);
    NoPairExcludes(Shloka1Translation(), "soul", 0);
  }

  /** The second half of the text lacks `so` after any prefix that lacks it. */
  lemma Shloka1TranslationEndLacksSo(x: string)
    requires NoPair(x, 's', 'o', 'S', 'O')
    ensures NoPair(x + "yourself the " + "cause of the " + "results of your " + "activities, and " + "never be " + "attached to not " + "doing your duty.", 's', 'o', 'S', 'O')
  {
    var s := x;
    NoPairAppend(s, "yourself the ", 's', 'o', 'S', 'O');
    s := s + "yourself the ";
    NoPairAppend(s, "cause of the ", 's', 'o', 'S', 'O');
    s := s + "cause of the ";
    NoPairAppend(s, "results of your ", 's', 'o', 'S', 'O');
    s := s + "results of your ";
    NoPairAppend(s, "activities, and ", 's', 'o', 'S', 'O');
    s := s + "activities, and ";
    NoPairAppend(s, "never be ", 's', 'o', 'S', 'O');
    s := s + "never be ";
    NoPairAppend(s, "attached to not ", 's', 'o', 'S', 'O');
    s := s + "attached to not ";
    NoPairAppend(s, "doing your duty.", 's', 'o', 'S', 'O');
    s := s + "doing your duty.";
  }

  /** The purport of verse 47 does not hold "soul": it has no `so` in either case. */
  lemma Shloka1PurportMissesSoul()
    ensures !Includes(Lower(Shloka1Purport()), "soul")
  {
    var s := "There are three ";
    NoPairAppend(s, "considerations ", 's', 'o', 'S', 'O');
    s := s + "considerations ";
    NoPairAppend(s, "here: ", 's', 'o', 'S', 'O');
    s := s + "here: ";
    NoPairAppend(s, "prescribed ", 's', 'o', 'S', 'O');
    s := s + "prescribed ";
    NoPairAppend(s, "duties, ", 's', 'o', 'S', 'O');
    s := s + "duties, ";
    NoPairAppend(s, "capriciously ", 's', 'o', 'S', 'O');
    s := s + "capriciously ";
    NoPairAppend(s, "work, and ", 's', 'o', 'S', 'O');
    s := s + "work, and ";
    NoPairAppend(s, "inaction. ", 's', 'o', 'S', 'O');
    s := s + "inaction. ";
    Shloka1PurportEndLacksSo(s);
    NoPairExcludes(Shloka1Purport(), "soul", 0);
  }

  /** The second half of the text lacks `so` after any prefix that lacks it. */
  lemma Shloka1PurportEndLacksSo(x: string)
    requires NoPair(x, 's', 'o', 'S', 'O')
    ensures NoPair(x + "Prescribed " + "duties are " + "activities " + "enjoined in " + "terms of one's " + "acquired modes " + "of material " + "nature.", 's', 'o', 'S', 'O')
  {
    var s := x;
    NoPairAppend(s, "Prescribed ", 's', 'o', 'S', 'O');
    s := s + "Prescribed ";
    NoPairAppend(s, "duties are ", 's', 'o', 'S', 'O');
    s := s + "duties are ";
    NoPairAppend(s, "activities ", 's', 'o', 'S', 'O');
    s := s + "activities ";
    NoPairAppend(s, "enjoined in ", 's', 'o', 'S', 'O');
    s := s + "enjoined in ";
    NoPairAppend(s, "terms of one's ", 's', 'o', 'S', 'O');
    s := s + "terms of one's ";
    NoPairAppend(s, "acquired modes ", 's', 'o', 'S', 'O');
    s := s + "acquired modes ";
    NoPairAppend(s, "of material ", 's', 'o', 'S', 'O');
    s := s + "of material ";
    NoPairAppend(s, "nature.", 's', 'o', 'S', 'O');
    s := s + "nature.";
  }

  /** The transliteration of verse 47 does not hold "soul": it has no `so` in either case. */
  lemma Shloka1TransliterationMissesSoul()
    ensures !Includes(Lower(Shloka1Transliteration()), "soul")
  {
    var tail := "evadhikaras te ";
    NoPairAppend(tail, "ma phalesu ", 's', 'o', 'S', 'O');
    tail := tail + "ma phalesu ";
    NoPairAppend(tail, "kadacana ma ", 's', 'o', 'S', 'O');
    tail := tail + "kadacana ma ";
    NoPairAppend(tail, "karma-phala-hetur ", 's', 'o', 'S', 'O');
    tail := tail + "karma-phala-hetur ";
    NoPairAppend(tail, "bhur ma te ", 's', 'o', 'S', 'O');
    tail := tail + "bhur ma te ";
    NoPairAppend(tail, "sango 'stv ", 's', 'o', 'S', 'O');
    tail := tail + "sango 'stv ";
    NoPairAppend(tail, "akarmani", 's', 'o', 'S', 'O');
    tail := tail + "akarmani";
    NoPairAppend("karmany ", tail, 's', 'o', 'S', 'O');
    NoPairExcludes(Shloka1Transliteration(), "soul", 0);
  }

  /** The translation of verse 20 does not hold "karma": it has no `rm` in either case. */
  lemma Shloka2TranslationMissesKarma()
    ensures !Includes(Lower(Shloka2Translation()), "karma")
  {
    var tail := "there is ";
    NoPairAppend(tail, "neither birth ", 'r', 'm', 'R', 'M');
    tail := tail + "neither birth ";
    NoPairAppend(tail, "nor death. It ", 'r', 'm', 'R', 'M');
    tail := tail + "nor death. It ";
    NoPairAppend(tail, "is not slain ", 'r', 'm', 'R', 'M');
    tail := tail + "is not slain ";
    NoPairAppend(tail, "when the body ", 'r', 'm', 'R', 'M');
    tail := tail + "when the body ";
    NoPairAppend(tail, "is slain.", 'r', 'm', 'R', 'M');
    tail := tail + "is slain.";
    NoPairAppend("For the soul ", tail, 'r', 'm', 'R', 'M');
    NoPairExcludes(Shloka2Translation(), "karma", 2);
  }

  /** The purport of verse 20 does not hold "karma": it has no `rm` in either case. */
  lemma Shloka2PurportMissesKarma()
    ensures !Includes(Lower(Shloka2Purport()), "karma")
  {
    var s := "Qualitatively, ";
    NoPairAppend(s, "the small ", 'r', 'm', 'R', 'M');
    s := s + "the small ";
    NoPairAppend(s, "atomic ", 'r', 'm', 'R', 'M');
    s := s + "atomic ";
    NoPairAppend(s, "fragmental part ", 'r', 'm', 'R', 'M');
    s := s + "fragmental part ";
    NoPairAppend(s, "of the Supreme ", 'r', 'm', 'R', 'M');
    s := s + "of the Supreme ";
    NoPairAppend(s, "Spirit is one ", 'r', 'm', 'R', 'M');
    s := s + "Spirit is one ";
    NoPairAppend(s, "with the ", 'r', 'm', 'R', 'M');
    s := s + "with the ";
    NoPairAppend(s, "Supreme.", 'r', 'm', 'R', 'M');
    s := s + "Supreme.";
    NoPairExcludes(Shloka2Purport(), "karma", 2);
  }

  /** The transliteration of verse 20 does not hold "karma": it has no `rm` in either case. */
  lemma Shloka2TransliterationMissesKarma()
    ensures !Includes(Lower(Shloka2Transliteration()), "karma")
  {
    var s := "na jayate ";
    NoPairAppend(s, "mriyate va ", 'r', 'm', 'R', 'M');
    s := s + "mriyate va ";
    NoPairAppend(s, "kadacin nayam ", 'r', 'm', 'R', 'M');
    s := s + "kadacin nayam ";
    NoPairAppend(s, "bhutva bhavita ", 'r', 'm', 'R', 'M');
    s := s + "bhutva bhavita ";
    NoPairAppend(s, "va na bhuyah ", 'r', 'm', 'R', 'M');
    s := s + "va na bhuyah ";
    Shloka2TransliterationEndLacksRm(s);
    NoPairExcludes(Shloka2Transliteration(), "karma", 2);
  }

  /** The second half of the text lacks `rm` after any prefix that lacks it. */
  lemma Shloka2TransliterationEndLacksRm(x: string)
    requires NoPair(x, 'r', 'm', 'R', 'M')
    ensures NoPair(x + "ajo nityah " + "sasvato 'yam " + "purano na " + "hanyate " + "hanyamane sarire", 'r', 'm', 'R', 'M')
  {
    var s := x;
    NoPairAppend(s, "ajo nityah ", 'r', 'm', 'R', 'M');
    s := s + "ajo nityah ";
    NoPairAppend(s, "sasvato 'yam ", 'r', 'm', 'R', 'M');
    s := s + "sasvato 'yam ";
    NoPairAppend(s, "purano na ", 'r', 'm', 'R', 'M');
    s := s + "purano na ";
    NoPairAppend(s, "hanyate ", 'r', 'm', 'R', 'M');
    s := s + "hanyate ";
    NoPairAppend(s, "hanyamane sarire", 'r', 'm', 'R', 'M');
    s := s + "hanyamane sarire";
  }

  /** Verse 20 does not match "karma". */
  lemma Shloka2MissesKarma(id: int, chapterId: int)
    ensures !MatchesTerm(Shloka2(id, chapterId), "karma")
  {
    Shloka2TranslationMissesKarma();
    Shloka2PurportMissesKarma();
    Shloka2TransliterationMissesKarma();
  }

  /** Verse 47 does not match "soul". */
  lemma Shloka1MissesSoul(id: int, chapterId: int)
    ensures !MatchesTerm(Shloka1(id, chapterId), "soul")
  {
    Shloka1TranslationMissesSoul();
    Shloka1PurportMissesSoul();
    Shloka1TransliterationMissesSoul();
  }

  /** "karma" finds the seeded verse 47 and nothing else: its transliteration starts with the word. */
  lemma SeedSearchKarma()
    ensures Search(SeedShlokaList(), "karma") == [Shloka1(1, 2)]
  {
    assert Lower("karma") == "karma";
    IncludesLowerHead("karmany ", Shloka1Transliteration()[8..], "karma", 0);
    Shloka2MissesKarma(2, 2);
    var p := (s: Shloka) => MatchesTerm(s, Lower("karma"));
    assert p(Shloka1(1, 2)) && !p(Shloka2(2, 2));
    FilterTwo(Shloka1(1, 2), Shloka2(2, 2), p);
    assert Search(SeedShlokaList(), "karma") == Filter(SeedShlokaList(), p);
  }

  /** "soul" finds the seeded verse 20 and nothing else: its translation speaks of the soul. */
  lemma SeedSearchSoul()
    ensures Search(SeedShlokaList(), "soul") == [Shloka2(2, 2)]
  {
    assert Lower("soul") == "soul";
    IncludesLowerHead("For the soul ", Shloka2Translation()[13..], "soul", 8);
    Shloka1MissesSoul(1, 2);
    var p := (s: Shloka) => MatchesTerm(s, Lower("soul"));
    assert !p(Shloka1(1, 2)) && p(Shloka2(2, 2));
    FilterTwo(Shloka1(1, 2), Shloka2(2, 2), p);
    assert Search(SeedShlokaList(), "soul") == Filter(SeedShlokaList(), p);
  }

  /**
   * `MemStorage`: three `Map` fields and three id counters. A JavaScript `Map`
   * iterates in insertion order, kept here as a key sequence beside each map
   * whose values are listed.
   */
  class MemStorage {
    var chapters: map<int, Chapter>
    var chapterOrder: seq<int>
    var shlokas: map<int, Shloka>
    var shlokaOrder: seq<int>
    var conversations: map<string, Conversation>
    var currentChapterId: int
    var currentShlokaId: int
    var currentConversationId: int

    /** Chapters 1 and 2 under ids 1 and 2, in that insertion order. */
    ghost predicate ChaptersSeeded()
      reads this
    {
      && chapters.Keys == {1, 2} && chapterOrder == [1, 2]
      && (forall id :: id in chapters ==> chapters[id].id == id && chapters[id].chapterNumber == id)
    }

    /** Verses 47 and 20 of chapter id 2 under ids 1 and 2, in that insertion order. */
    ghost predicate ShlokasSeeded()
      reads this
    {
      && shlokas.Keys == {1, 2} && shlokaOrder == [1, 2]
      && (forall id :: id in shlokas ==> shlokas[id].id == id && shlokas[id].chapterId == 2)
      && shlokas[1].verseNumber == 47 && shlokas[2].verseNumber == 20
    }

    /**
     * The seeded reference data keeps its shape, since no operation writes it
     * after construction, and the conversation counter stays positive.
     */
    ghost predicate Valid()
      reads this
    {
      && ChaptersSeeded() && ShlokasSeeded()
      && currentChapterId == 3 && currentShlokaId == 3
      && currentConversationId >= 1
    }

    constructor()
      ensures Valid()
      ensures chapters == SeedChapters() && shlokas == SeedShlokas()
      ensures conversations == map[] && currentConversationId == 1
    {
      chapters, chapterOrder := map[], [];
      shlokas, shlokaOrder := map[], [];
      conversations := map[];
      currentChapterId, currentShlokaId, currentConversationId := 1, 1, 1;
      new;
      SeedData();
    }

    /**
     * `seedData`: two chapters, then two shlokas of the second chapter, each
     * record taking the next id of its counter. The two halves are separate
     * methods only to keep each proof small.
     */
    method SeedData()
      requires chapters == map[] && chapterOrder == [] && shlokas == map[] && shlokaOrder == []
      requires currentChapterId == 1 && currentShlokaId == 1
      modifies this`chapters, this`chapterOrder, this`shlokas, this`shlokaOrder
      modifies this`currentChapterId, this`currentShlokaId
      ensures chapters == SeedChapters() && ChaptersSeeded()
      ensures shlokas == SeedShlokas() && ShlokasSeeded()
      ensures currentChapterId == 3 && currentShlokaId == 3
    {
      var secondChapterId := SeedChapterData();
      SeedShlokaData(secondChapterId);
    }

    /** The chapter half of `seedData`; returns the id the second chapter received. */
    method SeedChapterData() returns (secondChapterId: int)
      requires chapters == map[] && chapterOrder == [] && currentChapterId == 1
      modifies this`chapters, this`chapterOrder, this`currentChapterId
      ensures chapters == SeedChapters() && ChaptersSeeded()
      ensures currentChapterId == 3 && secondChapterId == 2
    {
      var chapter1 := Chapter1(currentChapterId);
      currentChapterId := currentChapterId + 1;
      var chapter2 := Chapter2(currentChapterId);
      currentChapterId := currentChapterId + 1;
      chapters, chapterOrder := chapters[chapter1.id := chapter1], InsertKey(chapterOrder, chapter1.id);
      chapters, chapterOrder := chapters[chapter2.id := chapter2], InsertKey(chapterOrder, chapter2.id);
      secondChapterId := chapter2.id;
    }

    /** The shloka half of `seedData`: both verses go to chapter `chapterId`. */
    method SeedShlokaData(chapterId: int)
      requires shlokas == map[] && shlokaOrder == [] && currentShlokaId == 1 && chapterId == 2
      modifies this`shlokas, this`shlokaOrder, this`currentShlokaId
      ensures shlokas == SeedShlokas() && ShlokasSeeded()
      ensures currentShlokaId == 3
    {
      var shloka1 := Shloka1(currentShlokaId, chapterId);
      currentShlokaId := currentShlokaId + 1;
      var shloka2 := Shloka2(currentShlokaId, chapterId);
      currentShlokaId := currentShlokaId + 1;
      shlokas, shlokaOrder := shlokas[shloka1.id := shloka1], InsertKey(shlokaOrder, shloka1.id);
      shlokas, shlokaOrder := shlokas[shloka2.id := shloka2], InsertKey(shlokaOrder, shloka2.id);
      assert shlokaOrder == [1, 2];
    }

    /** `chapters.get(id)`: ids 1 and 2 hold chapters 1 and 2, any other id nothing. */
    function GetChapter(id: int): (r: Option<Chapter>)
      reads this
      requires Valid()
      ensures r.Some? <==> id in chapters
      ensures r.Some? ==> r.value == chapters[id]
      ensures r.Some? <==> 1 <= id <= 2
      ensures r.Some? ==> r.value.id == id && r.value.chapterNumber == id
    {
      if id in chapters then Some(chapters[id]) else None
    }

    /** `Array.from(chapters.values())`: the chapters in insertion order, which is chapter-number order. */
    function GetAllChapters(): (r: seq<Chapter>)
      reads this
      requires Valid()
      ensures |r| == 2 && r[0].chapterNumber == 1 && r[1].chapterNumber == 2
      ensures forall c :: c in r <==> c in chapters.Values
    {
      MapValues(chapterOrder, chapters)
    }

    /** `shlokas.get(id)`: ids 1 and 2 hold verses 47 and 20, any other id nothing. */
    function GetShloka(id: int): (r: Option<Shloka>)
      reads this
      requires Valid()
      ensures r.Some? <==> id in shlokas
      ensures r.Some? ==> r.value == shlokas[id]
      ensures r.Some? <==> 1 <= id <= 2
      ensures r.Some? ==> r.value.id == id && r.value.chapterId == 2
    {
      if id in shlokas then Some(shlokas[id]) else None
    }

    /** `Array.from(shlokas.values())`: every stored shloka once, in insertion order. */
    function ShlokaList(): (r: seq<Shloka>)
      reads this
      requires Valid()
      ensures r == [shlokas[1], shlokas[2]]
      ensures forall s :: s in r <==> s in shlokas.Values
    {
      MapValues(shlokaOrder, shlokas)
    }

    /** `getShlokasByChapter`: the stored shlokas of that chapter id, in insertion order. */
    function GetShlokasByChapter(chapterId: int): (r: seq<Shloka>)
      reads this
      requires Valid()
      ensures forall s :: s in r <==> s in shlokas.Values && s.chapterId == chapterId
      ensures IsSubsequence(r, ShlokaList())
      ensures r == if chapterId == 2 then ShlokaList() else []
    {
      ByChapterUniform(ShlokaList(), 2, chapterId);
      ByChapter(ShlokaList(), chapterId)
    }

    /** `searchShlokas`: the stored shlokas whose texts contain the query, ignoring case, in insertion order. */
    function SearchShlokas(query: string): (r: seq<Shloka>)
      reads this
      requires Valid()
      ensures forall s :: s in r <==> s in shlokas.Values && MatchesTerm(s, Lower(query))
      ensures IsSubsequence(r, ShlokaList())
    {
      Search(ShlokaList(), query)
    }

    /**
     * Takes the current counter as the id and advances it, then stores the new
     * record under its session id, replacing any earlier one.
     */
    method CreateConversation(ins: InsertConversation) returns (c: Conversation)
      requires Valid()
      modifies this`conversations, this`currentConversationId
      ensures Valid()
      ensures c == NewConversation(old(currentConversationId), ins)
      ensures currentConversationId == old(currentConversationId) + 1
      ensures conversations == old(conversations)[ins.sessionId := c]
    {
      c := NewConversation(currentConversationId, ins);
      currentConversationId := currentConversationId + 1;
      conversations := conversations[c.sessionId := c];
    }

    /** `conversations.get(sessionId)`. */
    function GetConversation(sessionId: string): (r: Option<Conversation>)
      reads this
      ensures r.Some? <==> sessionId in conversations
      ensures r.Some? ==> r.value == conversations[sessionId]
    {
      if sessionId in conversations then Some(conversations[sessionId]) else None
    }

    /**
     * Throws for an unknown session and changes nothing; otherwise merges the
     * update into the stored record, stores it and returns it.
     */
    method UpdateConversation(sessionId: string, updates: ConversationUpdate) returns (r: Result<Conversation>)
      requires Valid()
      modifies this`conversations
      ensures Valid()
      ensures sessionId !in old(conversations) ==>
                r == Err("Conversation not found: " + sessionId) && conversations == old(conversations)
      ensures sessionId in old(conversations) ==>
                && r == Ok(Merge(old(conversations)[sessionId], updates))
                && conversations == old(conversations)[sessionId := r.value]
    {
      var existing := GetConversation(sessionId);
      if existing.None? {
        return Err("Conversation not found: " + sessionId);
      }
      var updated := Merge(existing.value, updates);
      conversations := conversations[sessionId := updated];
      r := Ok(updated);
    }
  }
}
