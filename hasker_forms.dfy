/**
 * The form-level checks of Hasker (W7_Hasker/hasker/core_hasker/forms.py):
 * at most three tags on a new question, one answer per author and question.
 *
 * `cleaned_data` is a map from field name to text; a field that failed its
 * own validation is absent from it.
 */
module HaskerForms {
  import opened Text

  const MaxTags: nat := 3
  const TooManyTagsMsg: String := "You cannot assign more than 3 tags"
  const AlreadyAnsweredMsg: String := "You've asked already on this question"
  const TagsField: String := "question_tags"

  /** What `clean` gives back: the data, a `ValidationError`, or a `KeyError`
    * that escapes. */
  datatype CleanResult = Cleaned(data: map<String, String>) | Invalid(message: String) | CleanKeyError(key: String)

  /** The number of whitespace-separated tags. */
  function TagCount(tags: String): nat
  {
    |Words(tags, IsPySpace)|
  }

  /** `QuestionCreateForm.clean` as written: it reads the tags unconditionally. */
  function CleanQuestionAsWritten(data: map<String, String>): CleanResult
  {
    if TagsField !in data then CleanKeyError(TagsField)
    else if TagCount(data[TagsField]) > MaxTags then Invalid(TooManyTagsMsg)
    else Cleaned(data)
  }

  /** A question whose tags field failed its own check (it is required, so an
    * empty one does) makes `clean` raise instead of showing the form again. */
  lemma EmptyTagsRaise(title: String, text: String)
    ensures CleanQuestionAsWritten(map["title" := title, "question_text" := text]) == CleanKeyError(TagsField)
  {
    assert TagsField !in map["title" := title, "question_text" := text];
  }

  /** `QuestionCreateForm.clean` as evidently intended: without a tags value
    * there is nothing to count, and the field's own error stands. */
  function CleanQuestion(data: map<String, String>): (r: CleanResult)
    ensures !r.CleanKeyError?
  {
    if TagsField in data && TagCount(data[TagsField]) > MaxTags then Invalid(TooManyTagsMsg) else Cleaned(data)
  }

  /** A question is refused exactly when it carries more than three tags;
    * otherwise its data come back unchanged, and wherever the written
    * check answers, the intended one answers the same. */
  lemma CleanQuestionSpec(data: map<String, String>)
    ensures CleanQuestion(data).Invalid? <==> TagsField in data && TagCount(data[TagsField]) > MaxTags
    ensures CleanQuestion(data).Invalid? ==> CleanQuestion(data).message == TooManyTagsMsg
    ensures CleanQuestion(data).Cleaned? ==> CleanQuestion(data).data == data
    ensures TagsField in data ==> CleanQuestionAsWritten(data) == CleanQuestion(data)
  {
  }

  /** One tag word is within the limit. */
  lemma OneTagAccepted(tag: String)
    requires tag != [] && forall i :: 0 <= i < |tag| ==> !IsPySpace(tag[i])
    ensures CleanQuestion(map[TagsField := tag]) == Cleaned(map[TagsField := tag])
  {
    WordsOfWord(tag, IsPySpace);
  }

  /** The answers already stored: which question, which author. */
  datatype AnswerRow = AnswerRow(question: nat, author: nat)

  predicate HasAnswered(answers: seq<AnswerRow>, question: nat, author: nat)
  {
    exists a :: a in answers && a.question == question && a.author == author
  }

  /** `AnswerCreateForm.clean`. */
  function CleanAnswer(data: map<String, String>, answers: seq<AnswerRow>, question: nat, author: nat): (r: CleanResult)
    ensures r.Invalid? <==> HasAnswered(answers, question, author)
    ensures r.Invalid? ==> r.message == AlreadyAnsweredMsg
    ensures r.Cleaned? ==> r.data == data
    ensures !r.CleanKeyError?
  {
    if HasAnswered(answers, question, author) then Invalid(AlreadyAnsweredMsg) else Cleaned(data)
  }

  /** Once an author's answer is stored, a second one on the same question is
    * refused, while other authors are judged as before. */
  lemma OneAnswerPerAuthor(data: map<String, String>, answers: seq<AnswerRow>, question: nat, author: nat, other: nat)
    requires other != author
    ensures CleanAnswer(data, answers + [AnswerRow(question, author)], question, author).Invalid?
    ensures CleanAnswer(data, answers + [AnswerRow(question, author)], question, other) == CleanAnswer(data, answers, question, other)
  {
    var more := answers + [AnswerRow(question, author)];
    assert AnswerRow(question, author) in more;
    assert HasAnswered(more, question, other) == HasAnswered(answers, question, other) by {
      if HasAnswered(more, question, other) {
        var a :| a in more && a.question == question && a.author == other;
        assert a in answers;
      }
      if HasAnswered(answers, question, other) {
        var a :| a in answers && a.question == question && a.author == other;
        assert a in more;
      }
    }
  }
}
