/** Shared vocabulary of the model: optional values, document ids, clock
    readings and the HTTP responses the route handlers send. */
module Common {

  /** A value that may be missing (`undefined` in the request body). */
  datatype Option<T> = None | Some(value: T) {
    function GetOr(default: T): T {
      if Some? then value else default
    }
  }

  /** A document id (a MongoDB ObjectId). */
  type Id = nat

  /** A clock reading in milliseconds since the epoch (a JavaScript Date). */
  type Time = int

  /** One entry of express-validator's `errors.array()`. */
  datatype FieldError = FieldError(field: string, msg: string)

  /** What a handler answers: a status code with a `{ message }` body, or a
      400 with the `{ errors }` list of every failed field validator. */
  datatype Response = Reply(status: int, message: string) | Invalid(errors: seq<FieldError>) {
    function Code(): int {
      if Reply? then status else 400
    }
  }

  /** The catch-all answer of the route handlers when a save or a query
      throws. */
  const ServerError := Reply(500, "Server error")

  /** express-validator's `isLength({ min: lo, max: hi })`, which counts
      characters (a surrogate pair once). */
  predicate LengthIn(s: string, lo: nat, hi: nat) {
    lo <= |s| <= hi
  }

  /** JavaScript's `s.length`: UTF-16 code units, so a character outside the
      Basic Multilingual Plane counts twice. */
  function Utf16Length(s: string): (n: nat)
    ensures |s| <= n <= 2 * |s|
    ensures n == |s| <==> forall i :: 0 <= i < |s| ==> s[i] as int < 0x1_0000
    decreases |s|
  {
    if s == [] then 0
    else
      var p := s[..|s| - 1];
      assert forall i :: 0 <= i < |p| ==> p[i] == s[i];
      Utf16Length(p) + (if s[|s| - 1] as int < 0x1_0000 then 1 else 2)
  }

  /** The positions of `s` that hold a character outside the Basic
      Multilingual Plane, which UTF-16 writes as a surrogate pair. */
  function AstralPositions(s: string): set<nat> {
    set i: nat | i < |s| && s[i] as int >= 0x1_0000
  }

  /** The exact count: one code unit per character, plus one more for each
      character that needs a surrogate pair. */
  lemma {:induction false} Utf16LengthCounts(s: string)
    ensures Utf16Length(s) == |s| + |AstralPositions(s)|
    decreases |s|
  {
    if s == [] {
      assert AstralPositions(s) == {};
    } else {
      var p := s[..|s| - 1];
      var last := |s| - 1;
      assert forall i :: 0 <= i < |p| ==> p[i] == s[i];
      Utf16LengthCounts(p);
      if s[last] as int < 0x1_0000 {
        assert AstralPositions(s) == AstralPositions(p);
      } else {
        assert AstralPositions(s) == AstralPositions(p) + {last};
      }
    }
  }

  /** Mongoose's `maxlength: max`, checked when a document is saved. */
  predicate WithinMaxLength(s: string, max: nat) {
    Utf16Length(s) <= max
  }

  /** The error list contributed by one validator. */
  function Check(ok: bool, e: FieldError): (errs: seq<FieldError>)
    ensures e in errs <==> !ok
    ensures |errs| <= 1
  {
    if ok then [] else [e]
  }
}
