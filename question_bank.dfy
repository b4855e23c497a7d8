/**
 * Checkpoint questions: the record every `/api/checkpoint` handler returns,
 * the fallback record for unknown sections, and the lookup all three bank
 * copies share (a dictionary membership test followed by either the stored
 * record or the fallback).
 */
module QuestionBank {
  import opened Wrappers
  import opened Json

  /** One answer choice `{id, text}`. */
  datatype AnswerOption = AnswerOption(id: string, text: string)

  /** `{question, options, correctAnswerId}`. */
  datatype QuestionRecord = QuestionRecord(question: string, options: seq<AnswerOption>, correctAnswerId: string)

  /** The ids of `options`, in order. */
  function OptionIds(options: seq<AnswerOption>): (ids: seq<string>)
    ensures |ids| == |options|
    ensures forall i :: 0 <= i < |options| ==> ids[i] == options[i].id
  {
    if options == [] then [] else [options[0].id] + OptionIds(options[1..])
  }

  /** The four option ids every stored record uses. */
  const StandardIds: seq<string> := ["a", "b", "c", "d"]

  /**
   * What every record in the banks satisfies: its options are labelled `a`,
   * `b`, `c`, `d` in that order, and its correct id is one of them.
   */
  predicate WellFormed(r: QuestionRecord) {
    OptionIds(r.options) == StandardIds && r.correctAnswerId in StandardIds
  }

  /** A record whose four options are labelled `a` to `d` in order is well formed. */
  lemma LabelledRecordWellFormed(r: QuestionRecord)
    requires |r.options| == 4
    requires r.options[0].id == "a" && r.options[1].id == "b"
    requires r.options[2].id == "c" && r.options[3].id == "d"
    requires r.correctAnswerId in StandardIds
    ensures WellFormed(r)
  {
    assert OptionIds(r.options) == StandardIds;
  }

  predicate BankWellFormed(bank: map<string, QuestionRecord>) {
    forall id :: id in bank ==> WellFormed(bank[id])
  }

  /** The record returned for a section the bank does not hold. */
  const DefaultQuestion: QuestionRecord := QuestionRecord(
    "What are the three main text vectorization techniques discussed in this course?",
    [ AnswerOption("a", "Bag of Words, TF-IDF, Word Embeddings"),
      AnswerOption("b", "Word2Vec, GloVe, FastText"),
      AnswerOption("c", "Tokenization, Stemming, Lemmatization"),
      AnswerOption("d", "CNN, RNN, Transformer") ],
    "a")

  /** The fallback is well formed and its answer is `a`. */
  lemma DefaultQuestionWellFormed()
    ensures WellFormed(DefaultQuestion) && DefaultQuestion.correctAnswerId == "a"
  {
    LabelledRecordWellFormed(DefaultQuestion);
  }

  /**
   * The lookup of every bank copy: the stored record when the section id is
   * a key, the fallback otherwise. It is total, and it hands out well-formed
   * records whenever the bank's records are.
   */
  function Lookup(bank: map<string, QuestionRecord>, sectionId: string): (r: QuestionRecord)
    ensures sectionId in bank ==> r == bank[sectionId]
    ensures sectionId !in bank ==> r == DefaultQuestion
    ensures BankWellFormed(bank) ==> WellFormed(r)
  {
    DefaultQuestionWellFormed();
    if sectionId !in bank then DefaultQuestion else bank[sectionId]
  }

  /**
   * The JavaScript lookup `questions[sectionId]` on a parsed JSON value. Only a
   * string can name a key here; every other value falls back.
   */
  function LookupValue(bank: map<string, QuestionRecord>, sectionId: JsonValue): QuestionRecord {
    if sectionId.Str? then Lookup(bank, sectionId.s) else DefaultQuestion
  }

  /** JavaScript `options.find(o => o.id === id)`: the first option with that id. */
  function Find(options: seq<AnswerOption>, id: string): (r: Option<AnswerOption>)
    ensures r.Some? <==> id in OptionIds(options)
    ensures r.Some? ==> r.value in options && r.value.id == id
    ensures r.Some? ==> exists k :: && 0 <= k < |options| && options[k] == r.value
                                    && forall j :: 0 <= j < k ==> options[j].id != id
  {
    if options == [] then None
    else if options[0].id == id then Some(options[0])
    else Find(options[1..], id)
  }

  /** In a well-formed record no two options share an id. */
  lemma WellFormedIdsDistinct(r: QuestionRecord)
    requires WellFormed(r)
    ensures |r.options| == 4
    ensures forall j, k :: 0 <= j < k < |r.options| ==> r.options[j].id != r.options[k].id
  {
    var ids := OptionIds(r.options);
    assert ids == StandardIds;
    forall j, k | 0 <= j < k < |r.options| ensures r.options[j].id != r.options[k].id {
      assert ids[j] != ids[k];
    }
  }

  /**
   * In a well-formed record exactly one option carries the correct id, so the
   * option the feedback names is determined.
   */
  lemma ExactlyOneCorrect(r: QuestionRecord)
    requires WellFormed(r)
    ensures exists k :: 0 <= k < |r.options| && r.options[k].id == r.correctAnswerId
    ensures forall j, k ::
              0 <= j < |r.options| && 0 <= k < |r.options| &&
              r.options[j].id == r.correctAnswerId && r.options[k].id == r.correctAnswerId
              ==> j == k
  {
    WellFormedIdsDistinct(r);
    var ids := OptionIds(r.options);
    var k :| 0 <= k < 4 && StandardIds[k] == r.correctAnswerId;
    assert r.options[k].id == ids[k];
  }
}
