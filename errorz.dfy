/** Storage-layer error classification: a code paired with the error it classifies. */
module Errorz {
  import opened Wrappers
  import opened Text

  /** Go's `ErrorCode` is a named string type, so any string is a code. */
  type ErrorCode = string

  const UnknownSqlError: ErrorCode := "A001"
  const NoRecordFound: ErrorCode := "A011"
  const RecordExists: ErrorCode := "A012"

  /** The code-to-description table. */
  const ErrorStatus: map<ErrorCode, string> := map[
    UnknownSqlError := "unknown sql error returned",
    RecordExists := "record already exists",
    NoRecordFound := "record does not exist"]

  /** The description of a code; a code outside the table gets Go's zero value `""`. */
  function Description(code: ErrorCode): (desc: string)
    ensures code == RecordExists ==> desc == "record already exists"
    ensures code == NoRecordFound ==> desc == "record does not exist"
    ensures code == UnknownSqlError ==> desc == "unknown sql error returned"
    ensures desc == "" <==> code !in {UnknownSqlError, NoRecordFound, RecordExists}
  {
    LookupOrEmpty(ErrorStatus, code)
  }

  /** The literal pieces of the message format `Code <%s>: %s`. */
  const MessageFormat: seq<string> := ["Code <", ">: ", ""]

  /** An error of the storage layer; `cause` is the original error, of an opaque type `E`. */
  datatype Error<E> = Error(code: ErrorCode, cause: E)
  {
    /** The text Go's `Error()` method returns. */
    function Message(): string {
      Format(MessageFormat, [code, Description(code)])
    }

    /** The wrapped original error. */
    function Debug(): E {
      cause
    }
  }

  /** `New`: builds an error for any code, whether the table knows it or not. */
  function New<E>(code: ErrorCode, err: E): (e: Error<E>)
    ensures e.code == code
    ensures e.Debug() == err
  {
    Error(code, err)
  }

  /** Reads the code and the description back out of a message. */
  function ParseMessage(s: string): Option<(ErrorCode, string)> {
    var args :- Unformat(MessageFormat, s);
    if |args| != 2 then None else Some((args[0], args[1]))
  }

  /** The message names the code and its description, and both can be read back from it. */
  lemma MessageRoundTrip<E>(code: ErrorCode, err: E)
    requires '>' !in code
    ensures ParseMessage(New(code, err).Message()) == Some((code, Description(code)))
  {
    assert Separable(MessageFormat, [code, Description(code)]);
    UnformatFormat(MessageFormat, [code, Description(code)]);
  }

  /** The message has the shape `Code <code>: description`. */
  lemma MessageShape<E>(e: Error<E>)
    ensures e.Message() == "Code <" + e.code + ">: " + Description(e.code)
  {
    var lits, args := MessageFormat, [e.code, Description(e.code)];
    FormatLeftNested(lits, args);
    assert FormatUpTo(lits, args, 1) == "Code <" + e.code;
    assert FormatUpTo(lits, args, 2) == FormatUpTo(lits, args, 1) + ">: " + Description(e.code);
  }

  /** A code the table does not know yields the bare `Code <code>: `. */
  lemma UnknownCodeMessage<E>(code: ErrorCode, err: E)
    requires code !in {UnknownSqlError, NoRecordFound, RecordExists}
    ensures New(code, err).Message() == "Code <" + code + ">: "
  {
    MessageShape(New(code, err));
  }

  /** The three codes are pairwise distinct. */
  lemma KnownCodesPairwiseDistinct()
    ensures |{UnknownSqlError, NoRecordFound, RecordExists}| == 3
  {
  }

  /** Errors with distinct known codes have distinct messages. */
  lemma KnownCodesDistinct<E>(e1: Error<E>, e2: Error<E>)
    requires e1.code in {UnknownSqlError, NoRecordFound, RecordExists}
    requires e2.code in {UnknownSqlError, NoRecordFound, RecordExists}
    requires e1.code != e2.code
    ensures e1.Message() != e2.Message()
  {
    MessageRoundTrip(e1.code, e1.cause);
    MessageRoundTrip(e2.code, e2.cause);
  }
}
