/** Option and Result, the failure-compatible wrappers used by every route model. */
module Wrappers {

  datatype Option<+T> = None | Some(value: T) {
    function GetOr(default: T): T {
      match this
      case Some(v) => v
      case None => default
    }
  }

  datatype Result<+T, +E> = Ok(value: T) | Err(error: E)
}

/** What every route handler shares: ids, error responses and the decoded session cookie. */
module Http {

  /** Document ids (MongoDB ObjectIds) are compared as opaque strings. */
  type Id = string

  /** A non-2xx JSON response `{ error: message }` with its HTTP status. */
  datatype HttpError = HttpError(status: int, message: string)

  /**
   * The outcome of reading the `token` cookie and decoding it with the
   * session secret.  The signing library itself is not modelled: a caller
   * supplies what decoding produced.
   */
  datatype Session =
    | NoToken                                   // no `token` cookie
    | DecodedNull                               // decode resolved to null (next-auth: an empty token)
    | DecodeThrew                               // decode threw (a token it cannot decrypt or verify)
    | Decoded(userId: Id, userType: string)     // the token's claims
  {
    /**
     * What a route's own `if (!token)` and `if (!decoded)` checks turn
     * away; a decode that throws skips them and lands in the catch.
     */
    predicate Refused() {
      NoToken? || DecodedNull?
    }
  }

  const Unauthorized := HttpError(401, "Unauthorized")
  const InternalError := HttpError(500, "Internal server error")
  const Failed := HttpError(500, "Failed")

  /** The session cookie's lifetime, 60 * 60 * 24 * 7 seconds (one week). */
  const SessionMaxAge: int := 60 * 60 * 24 * 7
}

/** JavaScript string semantics the routes rely on. */
module Text {
  import opened Wrappers

  /** `!x` is false for a JSON value: present and not the empty string. */
  predicate Truthy(o: Option<string>) {
    o.Some? && o.value != ""
  }

  /** A JSON number is truthy when present and not 0 (NaN is not modelled). */
  predicate TruthyNum(o: Option<int>) {
    o.Some? && o.value != 0
  }

  /** The characters `String.prototype.trim` removes (ECMAScript WhiteSpace and LineTerminator). */
  predicate IsSpace(c: char) {
    c == ' ' || c == '\t' || c == '\n' || c == '\r' || c == '\U{000B}' || c == '\U{000C}'
    || c == '\U{00A0}' || c == '\U{FEFF}' || c == '\U{1680}' || ('\U{2000}' <= c <= '\U{200A}')
    || c == '\U{2028}' || c == '\U{2029}' || c == '\U{202F}' || c == '\U{205F}' || c == '\U{3000}'
  }

  function TrimStart(s: string): (r: string)
    ensures |r| <= |s|
    ensures r == [] || !IsSpace(r[0])
  {
    if s != [] && IsSpace(s[0]) then TrimStart(s[1..]) else s
  }

  function TrimEnd(s: string): (r: string)
    ensures |r| <= |s|
    ensures r == [] || !IsSpace(r[|r| - 1])
  {
    if s != [] && IsSpace(s[|s| - 1]) then TrimEnd(s[..|s| - 1]) else s
  }

  /** `trimStart` removes a prefix made only of white space. */
  lemma {:induction false} TrimStartRemovesSpace(s: string)
    ensures var r := TrimStart(s);
      r == s[|s| - |r|..] && forall i :: 0 <= i < |s| - |r| ==> IsSpace(s[i])
  {
    if s != [] && IsSpace(s[0]) {
      TrimStartRemovesSpace(s[1..]);
    }
  }

  /** `trimEnd` removes a suffix made only of white space. */
  lemma {:induction false} TrimEndRemovesSpace(s: string)
    ensures var r := TrimEnd(s);
      r == s[..|r|] && forall i :: |r| <= i < |s| ==> IsSpace(s[i])
  {
    if s != [] && IsSpace(s[|s| - 1]) {
      TrimEndRemovesSpace(s[..|s| - 1]);
    }
  }

  /** `s.trim()`: leading and trailing white space removed. */
  function Trim(s: string): (r: string)
    ensures |r| <= |s|
    ensures r == [] || (!IsSpace(r[0]) && !IsSpace(r[|r| - 1]))
  {
    TrimEndRemovesSpace(TrimStart(s));
    TrimEnd(TrimStart(s))
  }

  lemma {:induction false} TrimStartOfClean(s: string)
    requires s == [] || !IsSpace(s[0])
    ensures TrimStart(s) == s
  {
  }

  lemma {:induction false} TrimEndOfClean(s: string)
    requires s == [] || !IsSpace(s[|s| - 1])
    ensures TrimEnd(s) == s
  {
  }

  /** Trimming twice is trimming once. */
  lemma TrimIdempotent(s: string)
    ensures Trim(Trim(s)) == Trim(s)
  {
    var t := Trim(s);
    TrimStartOfClean(t);
    TrimEndOfClean(t);
  }

  /** A string is its own trim exactly when it has no white space at either end. */
  lemma TrimFixedPoint(s: string)
    ensures Trim(s) == s <==> (s == [] || (!IsSpace(s[0]) && !IsSpace(s[|s| - 1])))
  {
    if s == [] || (!IsSpace(s[0]) && !IsSpace(s[|s| - 1])) {
      TrimStartOfClean(s);
      TrimEndOfClean(s);
    }
  }

  /**
   * The UTF-16 code units of one character: a character outside the Basic
   * Multilingual Plane is a surrogate pair.
   */
  function Units(c: char): nat {
    if c < '\U{10000}' then 1 else 2
  }

  /**
   * `s.length` in JavaScript, which is also what Mongoose's `minlength` and
   * zod's `.min` measure: UTF-16 code units, not characters.
   */
  function JsLength(s: string): (n: nat)
    ensures |s| <= n <= 2 * |s|
    ensures n == 0 <==> s == []
  {
    if s == [] then 0 else Units(s[0]) + JsLength(s[1..])
  }

  /** The length adds up over concatenation. */
  lemma {:induction false} JsLengthConcat(a: string, b: string)
    ensures JsLength(a + b) == JsLength(a) + JsLength(b)
  {
    if a != [] {
      assert (a + b)[0] == a[0] && (a + b)[1..] == a[1..] + b;
      JsLengthConcat(a[1..], b);
      assert JsLength(a + b) == Units(a[0]) + JsLength(a[1..] + b);
    } else {
      assert a + b == b;
    }
  }

  /** Within the Basic Multilingual Plane the length is the number of characters. */
  lemma {:induction false} JsLengthBmp(s: string)
    requires forall i :: 0 <= i < |s| ==> s[i] < '\U{10000}'
    ensures JsLength(s) == |s|
  {
    if s != [] {
      JsLengthBmp(s[1..]);
    }
  }

  /** One character past the plane is two units: U+1F600 alone has length 2. */
  lemma AstralLength()
    ensures JsLength("\U{1F600}") == 2
  {
  }

  /** `toLowerCase` on ASCII letters; other characters are left as they are. */
  function LowerChar(c: char): (r: char)
    ensures 'A' <= c <= 'Z' ==> 'a' <= r <= 'z'
    ensures !('A' <= c <= 'Z') ==> r == c
  {
    if 'A' <= c <= 'Z' then (c as int + 32) as char else c
  }

  function Lower(s: string): (r: string)
    ensures |r| == |s|
    ensures forall i {:trigger r[i]} :: 0 <= i < |s| ==> r[i] == LowerChar(s[i])
  {
    if s == [] then [] else [LowerChar(s[0])] + Lower(s[1..])
  }

  /** Regular-expression `\d`. */
  predicate IsDigit(c: char) {
    '0' <= c <= '9'
  }

  /** Regular-expression `\w`. */
  predicate IsWordChar(c: char) {
    ('a' <= c <= 'z') || ('A' <= c <= 'Z') || IsDigit(c) || c == '_'
  }

  predicate AllDigits(s: string) {
    forall i :: 0 <= i < |s| ==> IsDigit(s[i])
  }
}

/** Sequence helpers for the collections, which are kept in creation order. */
module Seqs {

  function Reverse<T>(s: seq<T>): (r: seq<T>)
    ensures |r| == |s|
    ensures forall i :: 0 <= i < |s| ==> r[i] == s[|s| - 1 - i]
  {
    if s == [] then [] else Reverse(s[1..]) + [s[0]]
  }

  /** The first `n` elements, or all of them when there are fewer (`.limit(n)` for n > 0). */
  function Take<T>(s: seq<T>, n: nat): (r: seq<T>)
    ensures |r| == if |s| < n then |s| else n
    ensures r == s[..|r|]
  {
    if |s| <= n then s else s[..n]
  }

  /** Everything after the first `n` elements (`.skip(n)`). */
  function Drop<T>(s: seq<T>, n: nat): (r: seq<T>)
    ensures |r| == if |s| < n then 0 else |s| - n
    ensures |s| >= n ==> r == s[n..]
  {
    if |s| <= n then [] else s[n..]
  }
}
