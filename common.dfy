/** Shared vocabulary of the backend model: optional values, JavaScript's
    `||` defaulting and `Math.round`, response statuses, and the page
    arithmetic of the paginated list endpoints. */
module Common {

  datatype Option<T> = None | Some(value: T)

  /** A number read with `x || d`: an absent value and a zero both give `d`. */
  function OrDefault(x: Option<real>, d: real): real
  {
    if x.Some? && x.value != 0.0 then x.value else d
  }

  /** `a || b` on two optional numbers: the first one that is present and non-zero. */
  function OrElse(a: Option<real>, b: Option<real>): Option<real>
  {
    if a.Some? && a.value != 0.0 then a else b
  }

  /** The value of an optional number, with absent as 0 (`x || 0`). */
  function OrZero(x: Option<real>): real
  {
    OrDefault(x, 0.0)
  }

  /** JavaScript `Math.round` on exact numbers: the nearest integer, halves rounded up. */
  function JsRound(x: real): (r: int)
    ensures r as real - 0.5 <= x < r as real + 0.5
  {
    (x + 0.5).Floor
  }

  /** `Math.round(x * 10) / 10`: one decimal place. */
  function RoundTenth(x: real): real
  {
    JsRound(x * 10.0) as real / 10.0
  }

  /** Largest of a non-empty list of numbers (`Math.max(...xs)`). */
  function MaxOf(xs: seq<real>): (m: real)
    requires |xs| > 0
    ensures m in xs
    ensures forall i :: 0 <= i < |xs| ==> xs[i] <= m
  {
    if |xs| == 1 then xs[0]
    else
      var rest := MaxOf(xs[1..]);
      assert forall i :: 1 <= i < |xs| ==> xs[i] == xs[1..][i - 1];
      if xs[0] >= rest then xs[0] else rest
  }

  /** Smallest of a non-empty list of numbers (`Math.min(...xs)`). */
  function MinOf(xs: seq<real>): (m: real)
    requires |xs| > 0
    ensures m in xs
    ensures forall i :: 0 <= i < |xs| ==> m <= xs[i]
  {
    if |xs| == 1 then xs[0]
    else
      var rest := MinOf(xs[1..]);
      assert forall i :: 1 <= i < |xs| ==> xs[i] == xs[1..][i - 1];
      if xs[0] <= rest then xs[0] else rest
  }

  /** Left-to-right sum of a list of numbers, as `reduce((a, b) => a + b, 0)` computes it. */
  function Total(xs: seq<real>): real
  {
    if |xs| == 0 then 0.0 else Total(xs[..|xs| - 1]) + xs[|xs| - 1]
  }

  lemma {:induction false} TotalNonNegative(xs: seq<real>)
    requires forall i :: 0 <= i < |xs| ==> xs[i] >= 0.0
    ensures Total(xs) >= 0.0
  {
    if |xs| > 0 {
      TotalNonNegative(xs[..|xs| - 1]);
    }
  }

  lemma {:induction false} TotalAppend(xs: seq<real>, ys: seq<real>)
    ensures Total(xs + ys) == Total(xs) + Total(ys)
  {
    if |ys| > 0 {
      assert (xs + ys)[..|xs + ys| - 1] == xs + ys[..|ys| - 1];
      TotalAppend(xs, ys[..|ys| - 1]);
    } else {
      assert xs + ys == xs;
    }
  }

  /** The outcome of a request handler. `Error` stands for a failure handed to
      the error middleware with `next(error)`, whose status is not part of this model. */
  datatype Status = Ok | Created | BadRequest | Unauthorized | Forbidden | NotFound | Error
  {
    function Code(): int
    {
      match this
      case Ok => 200
      case Created => 201
      case BadRequest => 400
      case Unauthorized => 401
      case Forbidden => 403
      case NotFound => 404
      case Error => 500
    }
  }

  /** Decimal digits of a natural number, as a template string prints it. */
  function NatToString(n: nat): (s: string)
    ensures |s| > 0
    ensures forall i :: 0 <= i < |s| ==> '0' <= s[i] <= '9'
    decreases n
  {
    var d := [(('0' as int) + n % 10) as char];
    if n < 10 then d else NatToString(n / 10) + d
  }

  /** A query-string filter applies only when it is given and not empty. */
  predicate Given(filter: Option<string>)
  {
    filter.Some? && filter.value != ""
  }

  /** An optional enumerated field: absent, or one of the values. */
  predicate OptionalIn(x: Option<string>, values: set<string>)
  {
    x.None? || x.value in values
  }

  /** The `page` and `limit` query parameters, 1 and 10 when absent. */
  function PageParam(page: Option<int>): int
  {
    if page.Some? then page.value else 1
  }

  function LimitParam(limit: Option<nat>): nat
  {
    if limit.Some? then limit.value else 10
  }

  /** Number of records a page skips: `(page - 1) * limit`. */
  function Skip(page: int, limit: nat): int
  {
    (page - 1) * limit
  }

  /** `Math.ceil(total / limit)`; a zero limit divides by zero (Infinity or NaN), shown as None. */
  function PageCount(total: nat, limit: nat): (pages: Option<nat>)
    ensures limit == 0 <==> pages == None
    ensures pages.Some? ==> pages.value * limit >= total && (pages.value == 0 || (pages.value - 1) * limit < total)
  {
    if limit == 0 then None else Some((total + limit - 1) / limit)
  }

  /** `find(...).limit(limit).skip(skip)` over the matching rows: a negative
      skip is refused by the database (None); a zero limit means no limit. */
  function PageOf<T>(rows: seq<T>, page: int, limit: nat): (r: Option<seq<T>>)
    ensures r.None? <==> Skip(page, limit) < 0
    ensures r.Some? && Skip(page, limit) >= |rows| ==> r.value == []
    ensures r.Some? && Skip(page, limit) < |rows| ==>
              var from := Skip(page, limit);
              var upto := if limit == 0 || from + limit > |rows| then |rows| else from + limit;
              r.value == rows[from..upto]
  {
    var skip := Skip(page, limit);
    if skip < 0 then None
    else if skip >= |rows| then Some([])
    else if limit == 0 || skip + limit > |rows| then Some(rows[skip..])
    else Some(rows[skip..skip + limit])
  }

  /** Multiplying both sides by a non-negative factor keeps the order. */
  lemma MulLe(a: int, b: int, k: int)
    requires a <= b && 0 <= k
    ensures a * k <= b * k
  {
  }

  /** Pages numbered 1 to the page count are non-empty and the pages after it are empty. */
  lemma PagesCoverRows<T>(rows: seq<T>, page: int, limit: nat)
    requires limit > 0 && page >= 1
    ensures PageOf(rows, page, limit).Some?
    ensures |PageOf(rows, page, limit).value| <= limit
    ensures page <= PageCount(|rows|, limit).value <==> |PageOf(rows, page, limit).value| > 0
  {
    var pages := PageCount(|rows|, limit).value;
    var skip := Skip(page, limit);
    MulLe(0, page - 1, limit);
    if page <= pages {
      MulLe(page - 1, pages - 1, limit);
      assert skip < |rows|;
    } else {
      MulLe(pages, page - 1, limit);
      assert skip >= |rows|;
    }
  }
}
