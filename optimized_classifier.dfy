/** The optimised classifier: the same name table as the rule classifier,
    enriched with the entities an NER model reports, and the keyword chain
    backed by a zero-shot intent model. Both models are outside the model:
    the NER output is an input list, and the zero-shot model's verdict is
    an optional label (absent when no model loaded, the call failed or its
    confidence was not above the threshold). */
module OptimizedClassifier {
  import opened Common
  import opened BertClassifier

  /** One grouped NER result: the recognised word and its entity group. */
  datatype NerEntity = NerEntity(word: string, group: string)

  /** The entity text of a result: sub-word markers removed, then stripped. */
  function CleanWord(word: string): string {
    Strip(Replace(word, "##", ""))
  }

  /** The type an NER entity group maps to, if any. */
  function NerType(group: string): (t: Option<string>)
    ensures t.Some? ==> t.value == "player" || t.value == "team"
  {
    var g := Lower(group);
    if g == "per" || g == "person" then Some("player")
    else if g == "org" || g == "organization" then Some("team")
    else None
  }

  function Names(entities: seq<(string, string)>): (names: seq<string>)
    ensures |names| == |entities|
    ensures forall i | 0 <= i < |names| :: names[i] == entities[i].0
  {
    seq(|entities|, i requires 0 <= i < |entities| => entities[i].0)
  }

  predicate DistinctNames(entities: seq<(string, string)>) {
    forall i, j | 0 <= i < j < |entities| :: entities[i].0 != entities[j].0
  }

  /** Whether the NER entity `n` is added to `entities`: a long enough text,
      not already a key, of a mapped group. */
  predicate Admitted(entities: seq<(string, string)>, n: NerEntity) {
    var text := CleanWord(n.word);
    |text| > 2 && text !in Names(entities) && NerType(n.group).Some?
  }

  /** The NER step of `_extract_entities`: each result, in order, is added
      when admitted. */
  function MergeNer(entities: seq<(string, string)>, ner: seq<NerEntity>): seq<(string, string)> {
    if ner == [] then entities
    else
      var prev := MergeNer(entities, ner[..|ner| - 1]);
      var n := ner[|ner| - 1];
      if Admitted(prev, n) then prev + [(CleanWord(n.word), NerType(n.group).value)] else prev
  }

  /** What the NER step keeps true of `r` grown from `entities`: nothing
      overwritten or dropped, only well-formed additions, unique names. */
  predicate ExtendsSoundly(entities: seq<(string, string)>, r: seq<(string, string)>) {
    |entities| <= |r| && r[..|entities|] == entities && DistinctNames(r) &&
    forall k | |entities| <= k < |r| :: |r[k].0| > 2 && (r[k].1 == "player" || r[k].1 == "team")
  }

  /** Adding one well-formed entity with a new name keeps the extension sound. */
  lemma AddKeepsSound(entities: seq<(string, string)>, prev: seq<(string, string)>, e: (string, string))
    requires ExtendsSoundly(entities, prev)
    requires |e.0| > 2 && (e.1 == "player" || e.1 == "team") && e.0 !in Names(prev)
    ensures ExtendsSoundly(entities, prev + [e])
  {
    var r := prev + [e];
    assert r[..|entities|] == prev[..|entities|];
    forall i, j | 0 <= i < j < |r|
      ensures r[i].0 != r[j].0
    {
      if j == |prev| {
        assert Names(prev)[i] == prev[i].0;
      }
    }
  }

  /** The NER step never overwrites or drops an entry; what it adds has a
      text longer than two characters, typed as player or team; and names
      stay unique. */
  lemma {:induction false} MergeNerSound(entities: seq<(string, string)>, ner: seq<NerEntity>)
    requires DistinctNames(entities)
    ensures var r := MergeNer(entities, ner);
      |r| <= |entities| + |ner| && ExtendsSoundly(entities, r)
  {
    if ner == [] {
      assert entities[..|entities|] == entities;
    } else {
      var n := |ner| - 1;
      MergeNerSound(entities, ner[..n]);
      var prev := MergeNer(entities, ner[..n]);
      if Admitted(prev, ner[n]) {
        AddKeepsSound(entities, prev, (CleanWord(ner[n].word), NerType(ner[n].group).value));
      }
    }
  }

  /** The rule matches of the optimised classifier. */
  function OptRuleEntities(sentence: string): seq<(string, string)> {
    RuleEntities(NbaEntities, PlayerOrTeam, sentence)
  }

  /** The table's names are distinct, so the rule matches have unique names. */
  lemma RuleNamesDistinct(sentence: string)
    ensures DistinctNames(OptRuleEntities(sentence))
  {
    var m := Mentioned(NbaEntities, sentence);
    NbaNamesDistinct();
    MentionedSubsequence(NbaEntities, sentence);
    var r := OptRuleEntities(sentence);
    forall i, j | 0 <= i < j < |r|
      ensures r[i].0 != r[j].0
    {
      assert r[i].0 == m[i].0 && r[j].0 == m[j].0;
    }
  }

  /** The names at positions `lo` to `hi` differ from every later one. */
  predicate DistinctAfter(t: seq<(string, string)>, lo: nat, hi: nat) {
    forall i, j | lo <= i < hi && i < j < |t| :: t[i].0 != t[j].0
  }

  lemma NbaDistinctAfter0()
    ensures DistinctAfter(NbaEntities, 0, 2)
  {
  }

  lemma NbaDistinctAfter2()
    ensures DistinctAfter(NbaEntities, 2, 4)
  {
  }

  lemma NbaDistinctAfter4()
    ensures DistinctAfter(NbaEntities, 4, 7)
  {
  }

  lemma NbaDistinctAfter7()
    ensures DistinctAfter(NbaEntities, 7, 10)
  {
  }

  lemma NbaDistinctAfter10()
    ensures DistinctAfter(NbaEntities, 10, 18)
  {
  }

  lemma NbaNamesDistinct()
    ensures DistinctNames(NbaEntities)
  {
    NbaDistinctAfter0();
    NbaDistinctAfter2();
    NbaDistinctAfter4();
    NbaDistinctAfter7();
    NbaDistinctAfter10();
  }

  /** The entries kept by name matching appear in the table's own order, so
      names distinct in the table stay distinct. */
  lemma {:induction false} MentionedSubsequence(table: seq<(string, string)>, sentence: string)
    requires DistinctNames(table)
    ensures DistinctNames(Mentioned(table, sentence))
    ensures forall e | e in Mentioned(table, sentence) :: e in table
  {
    if table != [] {
      var n := |table| - 1;
      MentionedSubsequence(table[..n], sentence);
      var rest := Mentioned(table[..n], sentence);
      forall e | e in rest
        ensures e.0 != table[n].0
      {
        var k :| 0 <= k < n && table[..n][k] == e;
      }
    }
  }

  /** `_extract_entities`, given the NER output (`None` when no NER model
      is loaded or the model call failed). */
  method ExtractEntities(sentence: string, ner: Option<seq<NerEntity>>) returns (entities: seq<(string, string)>)
    ensures ner.None? ==> entities == OptRuleEntities(sentence)
    ensures ner.Some? ==> entities == MergeNer(OptRuleEntities(sentence), ner.value)
  {
    entities := MatchTable(NbaEntities, PlayerOrTeam, sentence);
    if ner.Some? {
      entities := MergeNerResults(entities, ner.value);
    }
  }

  /** The NER loop of `_extract_entities`, adding to the rule matches. */
  method MergeNerResults(rules: seq<(string, string)>, results: seq<NerEntity>) returns (entities: seq<(string, string)>)
    ensures entities == MergeNer(rules, results)
  {
    entities := rules;
    var i := 0;
    while i < |results|
      invariant 0 <= i <= |results|
      invariant entities == MergeNer(rules, results[..i])
    {
      assert results[..i + 1][..i] == results[..i];
      var text := CleanWord(results[i].word);
      if |text| > 2 && text !in Names(entities) {
        var group := NerType(results[i].group);
        if group.Some? {
          entities := entities + [(text, group.value)];
        }
      }
      i := i + 1;
    }
    assert results[..i] == results;
  }

  /** The end result of entity extraction keeps every rule match in front,
      unchanged, and adds only well-formed NER entities with new names. */
  lemma ExtractedSound(sentence: string, ner: seq<NerEntity>)
    ensures ExtendsSoundly(OptRuleEntities(sentence), MergeNer(OptRuleEntities(sentence), ner))
  {
    RuleNamesDistinct(sentence);
    MergeNerSound(OptRuleEntities(sentence), ner);
  }

  // ------------------------------------------------------------ intents

  const OptServeWords: seq<string> := ["serve", "served", "play for", "played for"]

  /** `_classify_intent`: the keyword chain, then the zero-shot model's
      confident label if there is one, else "fallback". */
  function ClassifyIntent(sentence: string, modelIntent: Option<string>): string {
    var s := Lower(sentence);
    if ContainsAny(s, SimilarWords) then "find_similar"
    else if ContainsAny(s, RelationWords) then "relationship"
    else if ContainsAny(s, OptServeWords) then "serve"
    else if ContainsAny(s, FriendWords) then "friend"
    else if modelIntent.Some? then modelIntent.value
    else "fallback"
  }

  /** Keywords win: when any keyword group matches, the model is never
      consulted; without a match and without a model the answer is
      "fallback". */
  lemma KeywordsWin(sentence: string, m1: Option<string>, m2: Option<string>)
    ensures var s := Lower(sentence);
      var keyword := ContainsAny(s, SimilarWords) || ContainsAny(s, RelationWords) ||
                     ContainsAny(s, OptServeWords) || ContainsAny(s, FriendWords);
      (keyword ==> ClassifyIntent(sentence, m1) == ClassifyIntent(sentence, m2)) &&
      (!keyword ==> ClassifyIntent(sentence, None) == "fallback")
  {
  }

  /** The two keyword chains differ only in "team" (a serve keyword of the
      rule classifier alone) and "played for" (of this one alone): without
      either word and without a zero-shot verdict they answer alike. */
  lemma AgreesWithRules(sentence: string)
    requires !Contains(Lower(sentence), "team") && !Contains(Lower(sentence), "played for")
    ensures ClassifyIntent(sentence, None) == BertClassifier.ClassifyIntent(sentence)
  {
    var s := Lower(sentence);
    if ContainsAny(s, OptServeWords) != ContainsAny(s, ServeWords) {
      if ContainsAny(s, OptServeWords) {
        var k :| 0 <= k < 4 && Contains(s, OptServeWords[k]);
        ContainsAnyWord(s, ServeWords, if k == 0 then 0 else if k == 1 then 1 else 3);
      } else {
        var k :| 0 <= k < 4 && Contains(s, ServeWords[k]);
        ContainsAnyWord(s, OptServeWords, if k == 0 then 0 else if k == 1 then 1 else 2);
      }
    }
  }

  /** `get`, given the NER output and the zero-shot verdict. */
  method Get(sentence: string, ner: Option<seq<NerEntity>>, modelIntent: Option<string>) returns (res: Classification)
    ensures res.entities == if ner.Some? then MergeNer(OptRuleEntities(sentence), ner.value) else OptRuleEntities(sentence)
    ensures res.intents == [ClassifyIntent(sentence, modelIntent)]
  {
    var entities := ExtractEntities(sentence, ner);
    var intent := ClassifyIntent(sentence, modelIntent);
    res := Classification(entities, [intent]);
  }

  // ------------------------------------------------------------ factory

  datatype ClassifierKind = FastBert | OptimizedBert(forceOffline: bool)

  /** `create_bert_classifier`: the fast rule classifier when asked for,
      when the model library is missing, or when building the optimised one
      raises; otherwise the optimised one with the offline preference. */
  function CreateClassifier(preferOffline: bool, useFast: bool, transformersAvailable: bool, initRaises: bool): ClassifierKind {
    if useFast then FastBert
    else if !transformersAvailable then FastBert
    else if initRaises then FastBert
    else OptimizedBert(preferOffline)
  }

  lemma CreateClassifierChoice(preferOffline: bool, useFast: bool, transformersAvailable: bool, initRaises: bool)
    ensures var k := CreateClassifier(preferOffline, useFast, transformersAvailable, initRaises);
      (k == FastBert <==> useFast || !transformersAvailable || initRaises) &&
      (k.OptimizedBert? ==> k.forceOffline == preferOffline)
  {
  }
}
