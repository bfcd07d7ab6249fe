/** The rule-based natural-language front end of the chat bot: entities are
    found by matching a fixed table of player and team names, and the intent
    by keyword groups tried in a fixed order. The classifier always runs in
    its light mode, where neither the NER model nor the zero-shot intent
    model is loaded. */
module BertClassifier {
  import opened Common

  /** What every classifier answers: the entities found, name to type, in
      the order they were added, and the intents (always exactly one). */
  datatype Classification = Classification(entities: seq<(string, string)>, intents: seq<string>)

  /** The names the classifier knows, in dictionary order. */
  const NbaEntities: seq<(string, string)> := [
    ("Yao Ming", "player133"), ("Tim Duncan", "player100"), ("Tony Parker", "player101"),
    ("LeBron James", "player116"), ("Stephen Curry", "player117"), ("Kobe Bryant", "player115"),
    ("Klay Thompson", "player142"), ("Kevin Durant", "player119"), ("James Harden", "player120"),
    ("Chris Paul", "player121"), ("Russell Westbrook", "player118"),
    ("Warriors", "team200"), ("Lakers", "team210"), ("Rockets", "team202"), ("Spurs", "team204"),
    ("Celtics", "team217"), ("Heat", "team229"), ("Cavaliers", "team216")]

  /** The smaller table of the light fallback classifier. */
  const LiteEntities: seq<(string, string)> := [
    ("Yao Ming", "player133"), ("LeBron James", "player116"), ("Stephen Curry", "player117"),
    ("Kobe Bryant", "player115"), ("Warriors", "team200"), ("Lakers", "team210"), ("Rockets", "team202")]

  const CandidateLabels: seq<string> := ["relationship", "serve", "friend", "find_similar", "fallback"]

  /** `_get_entity_type`: the kind of vertex an id names, by its prefix. */
  function EntityType(id: string): string {
    if StartsWith(id, "player") then "player"
    else if StartsWith(id, "team") then "team"
    else "unknown"
  }

  /** The two-way typing of the light classifiers: anything that is not a
      player id counts as a team. */
  function PlayerOrTeam(id: string): string {
    if StartsWith(id, "player") then "player" else "team"
  }

  /** The two typings agree on every id with a known prefix, and differ on
      all others ("unknown" against "team"). */
  lemma TypingsAgree(id: string)
    ensures EntityType(id) == PlayerOrTeam(id) <==> StartsWith(id, "player") || StartsWith(id, "team")
  {
  }

  /** Entries of a name table renamed to their types. */
  function Typed(entries: seq<(string, string)>, typing: string -> string): (r: seq<(string, string)>)
    ensures |r| == |entries|
    ensures forall i | 0 <= i < |r| :: r[i] == (entries[i].0, typing(entries[i].1))
  {
    seq(|entries|, i requires 0 <= i < |entries| => (entries[i].0, typing(entries[i].1)))
  }

  /** The names matched in a sentence, each with its type. */
  function RuleEntities(table: seq<(string, string)>, typing: string -> string, sentence: string): seq<(string, string)> {
    Typed(Mentioned(table, sentence), typing)
  }

  /** A table entry is reported, with its type, exactly when its name
      occurs in the sentence, ignoring case; nothing else is reported. */
  lemma RuleEntitiesSound(table: seq<(string, string)>, typing: string -> string, sentence: string)
    ensures var r := RuleEntities(table, typing, sentence);
      (forall e | e in table && Contains(Lower(sentence), Lower(e.0)) :: (e.0, typing(e.1)) in r) &&
      (forall i | 0 <= i < |r| :: exists e | e in table :: Contains(Lower(sentence), Lower(e.0)) && r[i] == (e.0, typing(e.1)))
  {
    var m := Mentioned(table, sentence);
    var r := RuleEntities(table, typing, sentence);
    MentionedMembers(table, sentence);
    forall e | e in table && Contains(Lower(sentence), Lower(e.0))
      ensures (e.0, typing(e.1)) in r
    {
      var k :| 0 <= k < |m| && m[k] == e;
      assert r[k] == (e.0, typing(e.1));
    }
    forall i | 0 <= i < |r|
      ensures exists e | e in table :: Contains(Lower(sentence), Lower(e.0)) && r[i] == (e.0, typing(e.1))
    {
      assert m[i] in m;
    }
  }

  /** Scans a table the way both classifiers do, keeping each matched name
      with its type. */
  method MatchTable(table: seq<(string, string)>, typing: string -> string, sentence: string)
    returns (entities: seq<(string, string)>)
    ensures entities == RuleEntities(table, typing, sentence)
  {
    entities := [];
    var sentenceLower := Lower(sentence);
    var i := 0;
    while i < |table|
      invariant 0 <= i <= |table|
      invariant entities == RuleEntities(table[..i], typing, sentence)
    {
      assert table[..i + 1][..i] == table[..i];
      var e := table[i];
      if Contains(sentenceLower, Lower(e.0)) {
        entities := entities + [(e.0, typing(e.1))];
      }
      i := i + 1;
    }
    assert table[..i] == table;
  }

  // ------------------------------------------------------------ intents

  const SimilarWords: seq<string> := ["similar", "like", "comparable", "resemble"]
  const RelationWords: seq<string> := ["relationship", "relation", "connect", "between"]
  const ServeWords: seq<string> := ["serve", "served", "team", "play for"]
  const FriendWords: seq<string> := ["follow", "friend", "follows"]

  /** `_classify_intent`: the first keyword group found in the lower-cased
      sentence decides; with none, the zero-shot model would be asked, but
      it is never loaded, so the call fails and the answer is "fallback". */
  function ClassifyIntent(sentence: string): string {
    var s := Lower(sentence);
    if ContainsAny(s, SimilarWords) then "find_similar"
    else if ContainsAny(s, RelationWords) then "relationship"
    else if ContainsAny(s, ServeWords) then "serve"
    else if ContainsAny(s, FriendWords) then "friend"
    else "fallback"
  }

  /** The intent of `BERTClassifierLite.get`: smaller keyword groups in the
      same order. */
  function LiteIntent(sentence: string): string {
    var s := Lower(sentence);
    if Contains(s, "similar") then "find_similar"
    else if ContainsAny(s, ["relationship", "connect", "between"]) then "relationship"
    else if Contains(s, "serve") then "serve"
    else if Contains(s, "follow") then "friend"
    else "fallback"
  }

  /** The position of an intent in the keyword order. */
  function Rank(intent: string): nat {
    if intent == "find_similar" then 0
    else if intent == "relationship" then 1
    else if intent == "serve" then 2
    else if intent == "friend" then 3
    else 4
  }

  /** Any group containing a word found in the text is itself found. */
  lemma ContainsAnyWord(text: string, words: seq<string>, k: nat)
    requires k < |words| && Contains(text, words[k])
    ensures ContainsAny(text, words)
  {
  }

  /** Both intents are candidate labels. */
  lemma IntentsAreLabels(sentence: string)
    ensures ClassifyIntent(sentence) in CandidateLabels
    ensures LiteIntent(sentence) in CandidateLabels
  {
  }

  /** Every keyword of the light classifier belongs to the same group of the
      full one, so the full classifier never answers an intent later in the
      order than the light one. */
  lemma LiteNeverEarlier(sentence: string)
    ensures Rank(ClassifyIntent(sentence)) <= Rank(LiteIntent(sentence))
  {
    var s := Lower(sentence);
    if Contains(s, "similar") {
      ContainsAnyWord(s, SimilarWords, 0);
    } else if ContainsAny(s, ["relationship", "connect", "between"]) {
      var k :| 0 <= k < 3 && Contains(s, ["relationship", "connect", "between"][k]);
      ContainsAnyWord(s, RelationWords, if k == 0 then 0 else k + 1);
    } else if Contains(s, "serve") {
      ContainsAnyWord(s, ServeWords, 0);
    } else if Contains(s, "follow") {
      ContainsAnyWord(s, FriendWords, 0);
    }
  }

  /** "team" is a serve keyword: a sentence naming a team and no similarity
      or relation word is a serve question, even when it asks about
      something else. */
  lemma TeamMeansServe(sentence: string)
    requires Contains(Lower(sentence), "team")
    requires !ContainsAny(Lower(sentence), SimilarWords) && !ContainsAny(Lower(sentence), RelationWords)
    ensures ClassifyIntent(sentence) == "serve"
  {
    ContainsAnyWord(Lower(sentence), ServeWords, 2);
  }

  /** `BERTClassifier._extract_entities`: the name matching alone, the NER
      step being switched off. */
  method ExtractEntities(sentence: string) returns (entities: seq<(string, string)>)
    ensures entities == RuleEntities(NbaEntities, EntityType, sentence)
  {
    entities := MatchTable(NbaEntities, EntityType, sentence);
  }

  /** `BERTClassifier.get`. */
  method Get(sentence: string) returns (res: Classification)
    ensures res.entities == RuleEntities(NbaEntities, EntityType, sentence)
    ensures res.intents == [ClassifyIntent(sentence)]
  {
    var entities := ExtractEntities(sentence);
    var intents: seq<string> := [];
    intents := intents + [ClassifyIntent(sentence)];
    res := Classification(entities, intents);
  }

  /** `BERTClassifierLite.get`. */
  method LiteGet(sentence: string) returns (res: Classification)
    ensures res.entities == RuleEntities(LiteEntities, PlayerOrTeam, sentence)
    ensures res.intents == [LiteIntent(sentence)]
  {
    var entities := MatchTable(LiteEntities, PlayerOrTeam, sentence);
    res := Classification(entities, [LiteIntent(sentence)]);
  }
}
