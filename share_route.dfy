/**
 * The share endpoint (`POST /api/share`): a fixed-window per-IP rate limiter, the
 * validation of the posted document, the collision-avoiding choice of a share id and the
 * row it inserts. The clock, the random id generator and the database are inputs: the
 * clock as the `now` values, the generator as the sequence of ids it would produce, the
 * table as the set of ids already taken.
 */
module ShareRoute {
  import opened Options
  import opened Strings

  /** `MAX_SIZE`: five mebibytes. */
  const MaxSize := 5 * 1024 * 1024
  /** `EXPIRATION_MS`: thirty days. */
  const ExpirationMs := 30 * 24 * 60 * 60 * 1000
  /** `RATE_LIMIT`: requests admitted per window. */
  const RateLimit := 20
  /** `RATE_WINDOW`: one minute. */
  const RateWindow := 60 * 1000
  /** How many existence lookups the id loop makes at most. */
  const MaxIdAttempts := 5

  // ---------------------------------------------------------------------------------------
  // Client address
  // ---------------------------------------------------------------------------------------

  /** `s.split(",")[0]`. */
  function FirstField(s: string): (r: string)
    ensures ',' !in r && IsPrefix(r, s)
    ensures ',' !in s ==> r == s
  {
    if ',' in s then s[..IndexOfChar(s, ',')] else s
  }

  /**
   * The address the limiter is keyed on: the first field of `x-forwarded-for`, else
   * `x-real-ip`, else "unknown"; an empty value counts as missing.
   */
  function ClientIp(forwardedFor: Option<string>, realIp: Option<string>): (ip: string)
    ensures ip != ""
    ensures forwardedFor.Some? && FirstField(forwardedFor.value) != "" ==> ip == FirstField(forwardedFor.value)
    ensures ip == "unknown" || (forwardedFor.Some? && ip == FirstField(forwardedFor.value)) || realIp == Some(ip)
  {
    if forwardedFor.Some? && FirstField(forwardedFor.value) != "" then FirstField(forwardedFor.value)
    else if realIp.Some? && realIp.value != "" then realIp.value
    else "unknown"
  }

  // ---------------------------------------------------------------------------------------
  // Rate limiter
  // ---------------------------------------------------------------------------------------

  datatype RateRecord = RateRecord(count: int, resetAt: int)

  /** What one request does to an address's record: whether it is admitted and the record after it. */
  datatype RateOutcome = RateOutcome(allowed: bool, record: RateRecord)

  /**
   * `checkRateLimit` on one address whose record is `prior`: a missing or expired record
   * (`now > resetAt`, so a request at exactly `resetAt` still belongs to the old window)
   * opens a new window with count 1; inside a window a request is admitted while fewer
   * than `RateLimit` were, and an admitted request is counted.
   */
  function RateStep(prior: Option<RateRecord>, now: int): (r: RateOutcome)
    ensures r.allowed <==> prior.None? || now > prior.value.resetAt || prior.value.count < RateLimit
    ensures !r.allowed ==> r.record == prior.value
    ensures prior.Some? && now <= prior.value.resetAt ==> r.record.resetAt == prior.value.resetAt
    ensures prior.None? || now > prior.value.resetAt ==> r.record == RateRecord(1, now + RateWindow)
  {
    if prior.None? || now > prior.value.resetAt then RateOutcome(true, RateRecord(1, now + RateWindow))
    else if prior.value.count >= RateLimit then RateOutcome(false, prior.value)
    else RateOutcome(true, prior.value.(count := prior.value.count + 1))
  }

  /** `rateLimitMap.get(ip)`. */
  function Lookup(records: map<string, RateRecord>, ip: string): Option<RateRecord> {
    if ip in records then Some(records[ip]) else None
  }

  /** The in-memory `rateLimitMap`. */
  class RateLimiter {
    var records: map<string, RateRecord>

    /** Every record counts between one and `RateLimit` requests. */
    predicate Valid()
      reads this
    {
      forall ip :: ip in records ==> 1 <= records[ip].count <= RateLimit
    }

    constructor()
      ensures Valid() && records == map[]
    {
      records := map[];
    }

    /** `checkRateLimit(ip)` at time `now`: only the requesting address's record changes. */
    method CheckRateLimit(ip: string, now: int) returns (allowed: bool)
      requires Valid()
      modifies this
      ensures Valid()
      ensures allowed == RateStep(Lookup(old(records), ip), now).allowed
      ensures records == old(records)[ip := RateStep(Lookup(old(records), ip), now).record]
    {
      var record := Lookup(records, ip);
      if record.None? || now > record.value.resetAt {
        records := records[ip := RateRecord(1, now + RateWindow)];
        return true;
      }
      if record.value.count >= RateLimit {
        assert records == records[ip := record.value];
        return false;
      }
      records := records[ip := record.value.(count := record.value.count + 1)];
      return true;
    }
  }

  /** How many of the requests at `times`, made in order on the record `prior`, are admitted. */
  function Admitted(prior: Option<RateRecord>, times: seq<int>): (n: nat)
    ensures n <= |times|
    decreases |times|
  {
    if times == [] then 0
    else
      var o := RateStep(prior, times[0]);
      (if o.allowed then 1 else 0) + Admitted(Some(o.record), times[1..])
  }

  /** Inside a window that already counted `count` requests, at most `RateLimit - count` more are admitted. */
  lemma {:induction false} WindowCap(count: int, resetAt: int, times: seq<int>)
    requires 1 <= count <= RateLimit
    requires forall i :: 0 <= i < |times| ==> times[i] <= resetAt
    ensures Admitted(Some(RateRecord(count, resetAt)), times) <= RateLimit - count
    decreases |times|
  {
    if times != [] {
      var o := RateStep(Some(RateRecord(count, resetAt)), times[0]);
      WindowCap(o.record.count, resetAt, times[1..]);
    }
  }

  /**
   * A window opened at `start` admits at most `RateLimit` requests, whatever the record
   * before it: every request up to and including `start + RateWindow` is counted in it.
   */
  lemma AtMostLimitPerWindow(prior: Option<RateRecord>, start: int, times: seq<int>)
    requires prior.None? || start > prior.value.resetAt
    requires forall i :: 0 <= i < |times| ==> times[i] <= start + RateWindow
    ensures Admitted(prior, [start] + times) <= RateLimit
  {
    assert ([start] + times)[1..] == times;
    WindowCap(1, start + RateWindow, times);
  }

  /** A full window refuses a request at exactly `resetAt` and admits one a millisecond later. */
  lemma ResetAtBelongsToOldWindow(resetAt: int)
    ensures !RateStep(Some(RateRecord(RateLimit, resetAt)), resetAt).allowed
    ensures RateStep(Some(RateRecord(RateLimit, resetAt)), resetAt + 1) == RateOutcome(true, RateRecord(1, resetAt + 1 + RateWindow))
  {
  }

  // ---------------------------------------------------------------------------------------
  // Validation of the posted body
  // ---------------------------------------------------------------------------------------

  /** The `json` member of the posted body: a string, or anything else (absent included). */
  datatype JsonField = NotAString | Text(s: string)

  /**
   * The posted body: `Unreadable` when `request.json()` throws or when the body parses to
   * `null`, whose destructuring throws; otherwise its two members.
   */
  datatype RequestBody = Unreadable | Body(json: JsonField, fileName: Option<string>)

  datatype ShareResponse =
    | ShareError(status: nat, error: string)
    | Shared(id: string, url: string, expiresAt: int, sizeBytes: nat)

  /** The row inserted into the `shares` table. */
  datatype ShareRow = ShareRow(id: string, data: string, fileName: Option<string>, sizeBytes: nat, createdAt: int, expiresAt: int)

  const RateLimitError := "Rate limit exceeded. Please try again later."
  const MissingJsonError := "Missing or invalid JSON data"
  const TooLargeError := "JSON too large. Maximum size is 5MB"
  const InvalidJsonError := "Invalid JSON format"
  const InternalError := "Failed to create share"

  /**
   * The early returns of `POST`, in order: 429 when the limiter refuses, 500 when the body
   * cannot be read, 400 when `json` is not a non-empty string, 413 when its UTF-8 encoding
   * exceeds `MaxSize` bytes, 400 when it does not parse (`parses` stands for `JSON.parse`
   * succeeding); None when the request goes on to be stored.
   */
  function ValidateShare(allowed: bool, body: RequestBody, parses: string -> bool): (r: Option<ShareResponse>)
    ensures r.None? <==> allowed && body.Body? && body.json.Text? && body.json.s != ""
                         && Utf8Length(body.json.s) <= MaxSize && parses(body.json.s)
    ensures !allowed ==> r == Some(ShareError(429, RateLimitError))
    ensures r.Some? ==> r.value.ShareError? && r.value.status in {400, 413, 429, 500}
  {
    if !allowed then Some(ShareError(429, RateLimitError))
    else if body.Unreadable? then Some(ShareError(500, InternalError))
    else if body.json.NotAString? || body.json.s == "" then Some(ShareError(400, MissingJsonError))
    else if Utf8Length(body.json.s) > MaxSize then Some(ShareError(413, TooLargeError))
    else if !parses(body.json.s) then Some(ShareError(400, InvalidJsonError))
    else None
  }

  /** A refused request is answered 429 before the body is looked at. */
  lemma RateLimitComesFirst(b1: RequestBody, b2: RequestBody, p1: string -> bool, p2: string -> bool)
    ensures ValidateShare(false, b1, p1) == ValidateShare(false, b2, p2) == Some(ShareError(429, RateLimitError))
  {
  }

  /** An oversized document is answered 413 without being parsed. */
  lemma SizeCheckedBeforeParse(s: string, fileName: Option<string>, p1: string -> bool, p2: string -> bool)
    requires Utf8Length(s) > MaxSize
    ensures ValidateShare(true, Body(Text(s), fileName), p1) == ValidateShare(true, Body(Text(s), fileName), p2)
    ensures ValidateShare(true, Body(Text(s), fileName), p1) == Some(ShareError(413, TooLargeError))
  {
    assert s != [];
  }

  /** The limit is on bytes: a document of at most a quarter of `MaxSize` characters is never too large, one of more than `MaxSize` characters always is. */
  lemma SizeLimitInCharacters(s: string)
    ensures |s| <= MaxSize / 4 ==> Utf8Length(s) <= MaxSize
    ensures |s| > MaxSize ==> Utf8Length(s) > MaxSize
  {
  }

  // ---------------------------------------------------------------------------------------
  // Share id
  // ---------------------------------------------------------------------------------------

  /**
   * The position, among the generated `ids`, of the id the retry loop settles on: the
   * first of the first five that is not taken, else the sixth, which is never looked up.
   */
  function ChosenIndex(ids: seq<string>, taken: set<string>, from: nat): (k: nat)
    requires from <= MaxIdAttempts < |ids|
    ensures from <= k <= MaxIdAttempts
    ensures k < MaxIdAttempts ==> ids[k] !in taken
    ensures forall j :: from <= j < k ==> ids[j] in taken
    decreases MaxIdAttempts - from
  {
    if from == MaxIdAttempts then MaxIdAttempts
    else if ids[from] !in taken then from
    else ChosenIndex(ids, taken, from + 1)
  }

  /**
   * The `while (attempts < 5)` loop: `ids` are the values `generateShareId` returns, in
   * order, and `taken` the ids already in the table. `lookups` counts the SELECTs.
   */
  method PickShareId(ids: seq<string>, taken: set<string>) returns (id: string, lookups: nat)
    requires MaxIdAttempts < |ids|
    ensures id == ids[ChosenIndex(ids, taken, 0)]
    ensures lookups == if ChosenIndex(ids, taken, 0) < MaxIdAttempts then ChosenIndex(ids, taken, 0) + 1 else MaxIdAttempts
    ensures lookups <= MaxIdAttempts
    ensures id in taken ==> lookups == MaxIdAttempts && forall j :: 0 <= j < MaxIdAttempts ==> ids[j] in taken
  {
    id := ids[0];
    var attempts := 0;
    lookups := 0;
    while attempts < MaxIdAttempts
      invariant 0 <= attempts <= MaxIdAttempts
      invariant lookups == attempts && id == ids[attempts]
      invariant ChosenIndex(ids, taken, 0) == ChosenIndex(ids, taken, attempts)
    {
      lookups := lookups + 1;
      if id !in taken {
        break;
      }
      id := ids[attempts + 1];
      attempts := attempts + 1;
    }
  }

  /**
   * When the first five ids all collide, the sixth is chosen without a lookup although it
   * collides too; its INSERT then breaks the table's primary key.
   */
  lemma SixthIdUnchecked()
    ensures var ids := ["a", "a", "a", "a", "a", "a"]; ids[ChosenIndex(ids, {"a"}, 0)] in {"a"}
  {
  }

  // ---------------------------------------------------------------------------------------
  // The whole request
  // ---------------------------------------------------------------------------------------

  /** `fileName || null`. */
  function StoredFileName(fileName: Option<string>): (r: Option<string>)
    ensures r.Some? <==> fileName.Some? && fileName.value != ""
    ensures r.Some? ==> r == fileName
  {
    if fileName.Some? && fileName.value != "" then fileName else None
  }

  /**
   * `POST /api/share`: `now` is the clock at the rate check, `storedAt` the clock after the
   * id is chosen, `baseUrl` the configured or request origin. Answers with the error of
   * the first failing check and stores nothing; answers 500 and stores nothing when the
   * chosen id is already taken, since the INSERT then violates `id TEXT PRIMARY KEY`;
   * otherwise stores the document under the chosen id with an expiry thirty days after
   * `storedAt`.
   */
  method Post(limiter: RateLimiter, forwardedFor: Option<string>, realIp: Option<string>, now: int,
              body: RequestBody, parses: string -> bool, ids: seq<string>, taken: set<string>,
              storedAt: int, baseUrl: string)
    returns (response: ShareResponse, row: Option<ShareRow>)
    requires limiter.Valid() && MaxIdAttempts < |ids|
    modifies limiter
    ensures limiter.Valid()
    ensures var ip := ClientIp(forwardedFor, realIp);
            limiter.records == old(limiter.records)[ip := RateStep(Lookup(old(limiter.records), ip), now).record]
    ensures var v := ValidateShare(RateStep(Lookup(old(limiter.records), ClientIp(forwardedFor, realIp)), now).allowed, body, parses);
            (v.Some? ==> response == v.value && row.None?) &&
            (v.None? && ids[ChosenIndex(ids, taken, 0)] in taken ==>
               response == ShareError(500, InternalError) && row.None?) &&
            (v.None? && ids[ChosenIndex(ids, taken, 0)] !in taken ==>
                         var id := ids[ChosenIndex(ids, taken, 0)];
                         var size := Utf8Length(body.json.s);
                         row == Some(ShareRow(id, body.json.s, StoredFileName(body.fileName), size, storedAt, storedAt + ExpirationMs)) &&
                         response == Shared(id, baseUrl + "/s/" + id, storedAt + ExpirationMs, size))
  {
    var ip := ClientIp(forwardedFor, realIp);
    var allowed := limiter.CheckRateLimit(ip, now);
    var rejection := ValidateShare(allowed, body, parses);
    if rejection.Some? {
      return rejection.value, None;
    }
    var json := body.json.s;
    var sizeBytes := Utf8Length(json);
    var id, _ := PickShareId(ids, taken);
    if id in taken {
      return ShareError(500, InternalError), None;
    }
    var expiresAt := storedAt + ExpirationMs;
    row := Some(ShareRow(id, json, StoredFileName(body.fileName), sizeBytes, storedAt, expiresAt));
    response := Shared(id, baseUrl + "/s/" + id, expiresAt, sizeBytes);
  }
}
