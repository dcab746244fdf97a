/** The small part of the REST framework's behaviour that the views and
    serializers of the task tracker rely on: optional values, the values a
    serializer renders, responses and errors, and the checks a `CharField`
    applies to a submitted string. */
module Rest {

  datatype Option<+T> = None | Some(value: T)

  datatype Result<+T> = Success(value: T) | Failure(error: Error)

  /** Primary keys of the user and task tables. */
  type UserId = nat
  type TaskId = nat

  /** A calendar date, as a day number. */
  type Date = int

  /** The key of an authentication token: an opaque string. */
  type Token = string

  /** A value in a serializer's rendered output. */
  datatype Value =
    | Text(text: string)
    | Flag(flag: bool)
    | Day(day: Date)
    | Record(fields: map<string, Value>)

  /** The body of a successful response. A list response carries one
      rendered row per task of the listed queryset. */
  datatype Body =
    | NoContent
    | Object(data: map<string, Value>)
    | Rows(rows: map<TaskId, map<string, Value>>)

  /** The errors a request can end in. `NotAuthenticated` is raised when a
      permission fails for an anonymous caller, `PermissionDenied` when it
      fails for an authenticated one. `FieldErrors` names the fields whose
      validation failed; `NonFieldError` is an error raised by `validate`. */
  datatype Error =
    | NotAuthenticated
    | PermissionDenied
    | NotFound
    | MethodNotAllowed
    | FieldErrors(fields: set<string>)
    | NonFieldError(message: string)
    | ServerError

  datatype Response = Ok(status: nat, body: Body) | Fail(error: Error)

  const HTTP_200_OK: nat := 200
  const HTTP_201_CREATED: nat := 201
  const HTTP_204_NO_CONTENT: nat := 204

  /** The characters Python's `str.isspace` accepts, which `str.strip`
      removes: the ASCII whitespace and separator controls, and the Unicode
      spaces and line and paragraph separators. */
  predicate IsSpace(c: char)
  {
    || c == ' ' || '\t' <= c <= '\r' || '\U{1c}' <= c <= '\U{1f}'
    || c == '\U{85}' || c == '\U{a0}' || c == '\U{1680}' || '\U{2000}' <= c <= '\U{200a}'
    || c == '\U{2028}' || c == '\U{2029}' || c == '\U{202f}' || c == '\U{205f}' || c == '\U{3000}'
  }

  /** `s` with its trailing whitespace removed. */
  function TrimEnd(s: string): (t: string)
    ensures |t| <= |s| && t == s[..|t|]
    ensures t == [] || !IsSpace(t[|t| - 1])
    ensures t == [] && s != [] ==> IsSpace(s[0])
  {
    if |s| > 0 && IsSpace(s[|s| - 1]) then TrimEnd(s[..|s| - 1]) else s
  }

  /** A string that neither starts nor ends with whitespace. */
  predicate Trimmed(s: string)
  {
    s == [] || (!IsSpace(s[0]) && !IsSpace(s[|s| - 1]))
  }

  /** `str.strip()`: the leading whitespace dropped one character at a
      time, then the trailing whitespace; the result neither starts nor
      ends with whitespace, and a string without surrounding whitespace is
      left as it is. */
  function Strip(s: string): (t: string)
    ensures |t| <= |s| && Trimmed(t)
    ensures Trimmed(s) ==> t == s
  {
    if |s| > 0 && IsSpace(s[0]) then Strip(s[1..])
    else
      var t := TrimEnd(s);
      assert t != [] ==> t[0] == s[0];
      t
  }

  /** Stripping leaves nothing exactly when the string is all whitespace:
      this is the `CharField` blank check. */
  lemma {:induction false} StripBlank(s: string)
    ensures Strip(s) == [] <==> forall i :: 0 <= i < |s| ==> IsSpace(s[i])
  {
    if |s| > 0 && IsSpace(s[0]) {
      StripBlank(s[1..]);
      assert forall i :: 1 <= i < |s| ==> s[i] == s[1..][i - 1];
    }
  }

  /** `TrimEnd` removes only whitespace: everything it drops is a space. */
  lemma {:induction false} TrimEndDropsSpaces(s: string)
    ensures forall k :: |TrimEnd(s)| <= k < |s| ==> IsSpace(s[k])
  {
    if |s| > 0 && IsSpace(s[|s| - 1]) {
      var r := s[..|s| - 1];
      TrimEndDropsSpaces(r);
      assert forall k :: |TrimEnd(s)| <= k < |r| ==> s[k] == r[k];
    }
  }

  /** What `Strip` returns: a contiguous middle part of the input, with
      nothing but whitespace before it and after it. */
  lemma {:induction false} StripInfix(s: string)
    ensures exists i, j :: 0 <= i <= j <= |s| && Strip(s) == s[i..j] &&
              (forall k :: 0 <= k < i ==> IsSpace(s[k])) &&
              (forall k :: j <= k < |s| ==> IsSpace(s[k]))
  {
    if |s| > 0 && IsSpace(s[0]) {
      var r := s[1..];
      StripInfix(r);
      var i, j :| 0 <= i <= j <= |r| && Strip(r) == r[i..j] &&
                  (forall k :: 0 <= k < i ==> IsSpace(r[k])) &&
                  (forall k :: j <= k < |r| ==> IsSpace(r[k]));
      assert Strip(s) == s[i + 1..j + 1];
      assert forall k :: 1 <= k < |s| ==> s[k] == r[k - 1];
      assert forall k :: 0 <= k < i + 1 ==> IsSpace(s[k]);
      assert forall k :: j + 1 <= k < |s| ==> IsSpace(s[k]);
    } else {
      TrimEndDropsSpaces(s);
      assert Strip(s) == s[0..|Strip(s)|];
    }
  }

  /** The null character is no whitespace, so stripping neither removes
      nor adds one. */
  lemma StripKeepsNull(s: string)
    ensures '\U{0}' in Strip(s) <==> '\U{0}' in s
  {
    StripInfix(s);
    var i, j :| 0 <= i <= j <= |s| && Strip(s) == s[i..j] &&
                (forall k :: 0 <= k < i ==> IsSpace(s[k])) &&
                (forall k :: j <= k < |s| ==> IsSpace(s[k]));
    if '\U{0}' in s {
      var k :| 0 <= k < |s| && s[k] == '\U{0}';
      assert !IsSpace(s[k]);
      assert Strip(s)[k - i] == s[k];
    }
  }

  /** A present `CharField` value is accepted when, once surrounding
      whitespace is trimmed (`trim_whitespace` is true by default), it is
      not blank (`allow_blank` is false by default), its length is within
      the field's bounds, and it holds no null character (the field always
      carries a validator prohibiting them). */
  predicate CharAccepted(s: string, minLength: nat, maxLength: nat)
  {
    var t := Strip(s);
    |t| > 0 && minLength <= |t| <= maxLength && '\U{0}' !in t
  }

  /** The error a `CharField` named `name` reports for `value`: a required
      field must be present, and a present value must be accepted. */
  function CharFieldErrors(name: string, value: Option<string>, required: bool,
                           minLength: nat, maxLength: nat): (errs: set<string>)
    ensures errs <= {name}
    ensures errs == {} <==>
              (value.None? && !required) ||
              (value.Some? && 0 < |Strip(value.value)| && minLength <= |Strip(value.value)| <= maxLength &&
               '\U{0}' !in Strip(value.value))
  {
    match value
    case None => if required then {name} else {}
    case Some(s) => if CharAccepted(s, minLength, maxLength) then {} else {name}
  }
}
