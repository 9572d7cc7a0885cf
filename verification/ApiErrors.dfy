/** internal/clients/growthbook/client.go: the errors of the API and their classification. */
module ApiErrors {

  /** A non-2xx response, or a failure to send the request or read the reply. */
  datatype Error = APIError(statusCode: int, message: string) | OtherError(message: string)

  function Lower(c: char): char {
    if 'A' <= c <= 'Z' then c + 32 as char else c
  }

  function ToLower(s: string): string {
    seq(|s|, i requires 0 <= i < |s| => Lower(s[i]))
  }

  predicate OccursAt(s: string, part: string, i: int) {
    0 <= i <= |s| - |part| && s[i..i + |part|] == part
  }

  predicate Contains(s: string, part: string) {
    exists i | 0 <= i <= |s| :: OccursAt(s, part, i)
  }

  /** Missing: a 404, or a 400 whose message says so in any letter case. */
  predicate IsNotFound(err: Error) {
    && err.APIError?
    && (err.statusCode == 404
        || (err.statusCode == 400
            && (Contains(ToLower(err.message), "could not find") || Contains(ToLower(err.message), "not found"))))
  }

  /** A 403 that asks for the feature to be archived first, in any letter case. */
  predicate IsArchiveRequired(err: Error) {
    err.APIError? && err.statusCode == 403 && Contains(ToLower(err.message), "archive the feature first")
  }

  /** No error is both, so Delete's two special cases never compete. */
  lemma NotFoundIsNotArchiveRequired(err: Error)
    ensures !(IsNotFound(err) && IsArchiveRequired(err))
  {
  }

  lemma LowerOfSlice(s: string, i: nat, j: nat)
    requires i <= j <= |s|
    ensures ToLower(s[i..j]) == ToLower(s)[i..j]
  {
  }

  /** A message is classified by any part of it that spells the phrase, in any case. */
  lemma ContainsAnyCase(message: string, i: nat, j: nat, phrase: string)
    requires i <= j <= |message| && ToLower(message[i..j]) == phrase
    ensures Contains(ToLower(message), phrase)
  {
    LowerOfSlice(message, i, j);
    assert OccursAt(ToLower(message), phrase, i);
  }

  /** The part is the phrase with any of its letters in either case. */
  predicate Spells(part: string, phrase: string) {
    && |part| == |phrase|
    && forall i :: 0 <= i < |part| ==> part[i] == phrase[i] || ('A' <= part[i] <= 'Z' && part[i] as int + 32 == phrase[i] as int)
  }

  /** Some part of the message spells the phrase. */
  ghost predicate Says(message: string, phrase: string) {
    exists i, j :: 0 <= i <= j <= |message| && Spells(message[i..j], phrase)
  }

  predicate NoCapitals(phrase: string) {
    forall c :: c in phrase ==> !('A' <= c <= 'Z')
  }

  lemma SpellsIsLower(part: string, phrase: string)
    requires NoCapitals(phrase)
    ensures Spells(part, phrase) <==> ToLower(part) == phrase
  {
    if Spells(part, phrase) {
      forall i | 0 <= i < |part| ensures ToLower(part)[i] == phrase[i] {
        assert phrase[i] in phrase;
      }
    }
    if ToLower(part) == phrase {
      forall i | 0 <= i < |part|
        ensures part[i] == phrase[i] || ('A' <= part[i] <= 'Z' && part[i] as int + 32 == phrase[i] as int)
      {
        assert ToLower(part)[i] == phrase[i];
      }
    }
  }

  /** Looking for a phrase in the lower-cased message finds exactly the parts that spell it. */
  lemma ContainsExactlyWhen(message: string, phrase: string)
    requires NoCapitals(phrase)
    ensures Contains(ToLower(message), phrase) <==> Says(message, phrase)
  {
    if i :| 0 <= i <= |message| && OccursAt(ToLower(message), phrase, i) {
      var j := i + |phrase|;
      LowerOfSlice(message, i, j);
      SpellsIsLower(message[i..j], phrase);
    }
    if i, j :| 0 <= i <= j <= |message| && Spells(message[i..j], phrase) {
      SpellsIsLower(message[i..j], phrase);
      ContainsAnyCase(message, i, j, phrase);
    }
  }

  /** What the API says of a missing object. */
  ghost predicate SaysMissing(err: Error) {
    && err.APIError?
    && (err.statusCode == 404
        || (err.statusCode == 400 && (Says(err.message, "could not find") || Says(err.message, "not found"))))
  }

  /** What the API says of a feature to be archived first. */
  ghost predicate SaysArchiveFirst(err: Error) {
    err.APIError? && err.statusCode == 403 && Says(err.message, "archive the feature first")
  }

  /**
   An error is classified as missing, or as a demand to archive, exactly when its code and
   some part of its message say so.
   */
  lemma ClassifiedExactlyWhen(err: Error)
    ensures IsNotFound(err) <==> SaysMissing(err)
    ensures IsArchiveRequired(err) <==> SaysArchiveFirst(err)
  {
    ContainsExactlyWhen(err.message, "could not find");
    ContainsExactlyWhen(err.message, "not found");
    ContainsExactlyWhen(err.message, "archive the feature first");
  }

  const COULD_NOT_FIND := APIError(404, "Could not find feature")
  const COULD_NOT_FIND_400 := APIError(400, "Could not find project")
  const ARCHIVE_FIRST := APIError(403, "Archive the feature first")

  /** A missing object is recognised as a 404 and as a 400 that says so. */
  lemma MissingIsRecognised()
    ensures IsNotFound(COULD_NOT_FIND) && IsNotFound(COULD_NOT_FIND_400)
  {
    var m := COULD_NOT_FIND_400.message;
    assert m[0..14] == "Could not find";
    ContainsAnyCase(m, 0, 14, "could not find");
  }

  lemma ArchiveFirstIsRecognised()
    ensures IsArchiveRequired(ARCHIVE_FIRST)
  {
    var m := ARCHIVE_FIRST.message;
    assert m[0..|m|] == m;
    ContainsAnyCase(m, 0, |m|, "archive the feature first");
  }

  /** The refusals observed on the API are classified one way each. */
  lemma RefusalsAreRecognised()
    ensures IsNotFound(COULD_NOT_FIND) && !IsArchiveRequired(COULD_NOT_FIND)
    ensures IsNotFound(COULD_NOT_FIND_400) && !IsArchiveRequired(COULD_NOT_FIND_400)
    ensures IsArchiveRequired(ARCHIVE_FIRST) && !IsNotFound(ARCHIVE_FIRST)
  {
    MissingIsRecognised();
    ArchiveFirstIsRecognised();
  }
}
