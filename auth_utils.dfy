/** `isUnauthorizedError`: the test `/^401: .*Unauthorized/` on an error
    message. `.` matches any character except a line terminator, so
    "Unauthorized" must follow the prefix on the same line. */
module AuthUtils {
  import opened Wrappers
  import opened Text
  import QueryClient

  const Prefix := "401: "
  const Word := "Unauthorized"

  /** "Unauthorized" starts at `j` in `s`, and no line terminator comes before it. */
  ghost predicate WordOnFirstLineAt(s: string, j: int) {
    && 0 <= j <= |s|
    && StartsWith(s[j..], Word)
    && forall k :: 0 <= k < j ==> !IsLineTerminator(s[k])
  }

  /** The `.*Unauthorized` part, matched left to right. */
  function WordOnFirstLine(s: string): (b: bool)
    ensures b <==> exists j :: WordOnFirstLineAt(s, j)
  {
    if StartsWith(s, Word) then
      assert WordOnFirstLineAt(s, 0);
      true
    else if s == [] || IsLineTerminator(s[0]) then
      assert forall j :: WordOnFirstLineAt(s, j) ==> j == 0;
      false
    else
      var b := WordOnFirstLine(s[1..]);
      assert forall j :: 1 <= j <= |s| ==> (WordOnFirstLineAt(s, j) <==> WordOnFirstLineAt(s[1..], j - 1)) by {
        forall j | 1 <= j <= |s|
          ensures WordOnFirstLineAt(s, j) <==> WordOnFirstLineAt(s[1..], j - 1)
        {
          assert s[j..] == s[1..][j - 1..];
          assert forall k :: 1 <= k < j ==> s[k] == s[1..][k - 1];
        }
      }
      if b then
        assert exists j :: WordOnFirstLineAt(s, j) by {
          var j :| WordOnFirstLineAt(s[1..], j);
          assert WordOnFirstLineAt(s, j + 1);
        }
        true
      else
        assert !WordOnFirstLineAt(s, 0);
        false
  }

  /** `isUnauthorizedError(error)` on the error's message: it starts with
      "401: " and "Unauthorized" follows on the same line. */
  function IsUnauthorizedError(message: string): (b: bool)
    ensures b <==> StartsWith(message, Prefix) && exists j :: WordOnFirstLineAt(message[|Prefix|..], j)
  {
    StartsWith(message, Prefix) && WordOnFirstLine(message[|Prefix|..])
  }

  /** A message that opens with "401: Unauthorized" is recognised. */
  lemma RecognisesLabelledPrefix(m: string)
    requires StartsWith(m, Prefix + Word)
    ensures IsUnauthorizedError(m)
  {
    assert m[..|Prefix|] == (Prefix + Word)[..|Prefix|] == Prefix;
    var rest := m[|Prefix|..];
    assert rest[..|Word|] == m[|Prefix|..|Prefix| + |Word|] == Word;
    assert WordOnFirstLineAt(rest, 0);
  }

  lemma StatusText401()
    ensures IntToString(401) == "401"
  {
    assert NatToString(401) == NatToString(40) + [DigitChar(1)];
    assert NatToString(40) == NatToString(4) + [DigitChar(0)];
  }

  /** The message thrown for a 401, whatever its detail, is recognised. */
  lemma RecognisesUnauthorizedMessage(detail: string)
    ensures IsUnauthorizedError("401" + ": " + "Unauthorized" + " - " + detail)
  {
    var m := "401" + ": " + "Unauthorized" + " - " + detail;
    assert m == (Prefix + Word) + (" - " + detail);
    RecognisesLabelledPrefix(m);
  }

  /** Every 401 error raised for a failed response is recognised, whatever
      the error text. */
  lemma Recognises401Messages(res: QueryClient.Response)
    requires res.status == 401
    ensures QueryClient.ThrowIfResNotOk(res).Some?
    ensures IsUnauthorizedError(QueryClient.ThrowIfResNotOk(res).value)
  {
    var d := QueryClient.Detail(res.status, QueryClient.ErrorText(res), res.statusText);
    StatusText401();
    assert QueryClient.ThrowIfResNotOk(res).value == "401" + ": " + "Unauthorized" + " - " + d;
    RecognisesUnauthorizedMessage(d);
  }

  /** The prefix is anchored and exact: a message that does not start with
      "401: " (another status such as "403: Forbidden - Unauthorized", or a
      leading space) is not recognised, whatever follows. */
  lemma RejectsOtherPrefixes(m: string)
    requires !StartsWith(m, Prefix)
    ensures !IsUnauthorizedError(m)
  {
  }

  /** "Unauthorized" on a later line does not count: for example
      "401: Session expired\nUnauthorized" is not recognised. */
  lemma RejectsWordAfterLineBreak(first: string, rest: string)
    requires !Includes(first, Word)
    ensures !IsUnauthorizedError(Prefix + first + "\n" + rest)
  {
    var m := Prefix + first + "\n" + rest;
    var s := m[|Prefix|..];
    assert s == first + "\n" + rest;
    // Inside the first line, the word would occur in `first`.
    forall j | 0 <= j && j + |Word| <= |first| ensures !WordOnFirstLineAt(s, j) {
      assert !OccursAt(first, Word, j);
      assert first[j..j + |Word|] == s[j..][..|Word|];
    }
    // Across the line break, the word would contain a line feed.
    forall j | 0 <= j <= |first| < j + |Word| <= |s| ensures !WordOnFirstLineAt(s, j) {
      assert '\n' !in Word;
      assert Word[|first| - j] != s[j..][..|Word|][|first| - j];
    }
    // After the line break, the line feed comes before it.
    forall j | |first| < j <= |s| ensures !WordOnFirstLineAt(s, j) {
      assert IsLineTerminator(s[|first|]);
    }
  }
}
