/** Page numbers of list requests, read in 64-bit unsigned arithmetic (internal/web/api/pagination.go). */
module Pagination {
  import opened Base

  const MAX_UINT64 := 0xFFFF_FFFF_FFFF_FFFF
  const MAX_INT64 := 0x7FFF_FFFF_FFFF_FFFF

  newtype uint64 = x: int | 0 <= x <= MAX_UINT64
  newtype int64 = x: int | -MAX_INT64 - 1 <= x <= MAX_INT64

  const DEFAULT_PAGE: int64 := 1
  const DEFAULT_PAGE_SIZE: int64 := 20
  const MAX_PAGE: int64 := 10000
  const MAX_PAGE_SIZE: int64 := 100

  datatype Rule = Duplicate | InvalidFormat | OutOfRange

  datatype Parsed = Accepted(value: int64) | Refused(field: string, rule: Rule)

  predicate IsDigit(c: char) { '0' <= c <= '9' }

  ghost predicate IsDecimal(s: string) {
    s != "" && forall k | 0 <= k < |s| :: IsDigit(s[k])
  }

  /** The number a digit string denotes, however long. */
  function Number(s: string): nat
    requires forall k | 0 <= k < |s| :: IsDigit(s[k])
  {
    if s == "" then 0
    else
      assert IsDigit(s[|s| - 1]);
      10 * Number(s[..|s| - 1]) + (s[|s| - 1] - '0') as nat
  }

  lemma {:induction false} NumberGrows(s: string, i: nat)
    requires i <= |s| && forall k | 0 <= k < |s| :: IsDigit(s[k])
    ensures Number(s[..i]) <= Number(s)
  {
    if i < |s| {
      assert s[..|s| - 1][..i] == s[..i];
      NumberGrows(s[..|s| - 1], i);
    } else {
      assert s[..i] == s;
    }
  }

  method IsUnsignedDecimal(value: string) returns (decimal: bool)
    ensures decimal <==> forall k | 0 <= k < |value| :: IsDigit(value[k])
  {
    for i := 0 to |value|
      invariant forall k | 0 <= k < i :: IsDigit(value[k])
    {
      if value[i] < '0' || value[i] > '9' { return false; }
    }
    return true;
  }

  /** Reads digits one by one, and refuses just before the next would not fit in 64 bits. */
  method ParseDigits(value: string) returns (parsed: uint64, fits: bool)
    requires IsDecimal(value)
    ensures fits <==> Number(value) <= MAX_UINT64
    ensures fits ==> parsed as int == Number(value)
  {
    parsed := 0;
    for i := 0 to |value|
      invariant parsed as int == Number(value[..i])
    {
      var digit := (value[i] - '0') as uint64;
      assert value[..i + 1][..i] == value[..i];
      NumberGrows(value, i + 1);
      if parsed > (0xFFFF_FFFF_FFFF_FFFF - digit) / 10 {
        return parsed, false;
      }
      parsed := parsed * 10 + digit;
    }
    assert value[..|value|] == value;
    return parsed, true;
  }

  /** What a field of the query must be read as: absent fields have a default, a field given once is accepted
      exactly when its value is a digit string of a number from one to the maximum. */
  ghost function Meaning(values: map<string, seq<string>>, field: string, defaultValue: int64, maximum: int64): Parsed {
    if field !in values then Accepted(defaultValue)
    else if |values[field]| != 1 then Refused(field, Duplicate)
    else if !IsDecimal(values[field][0]) then Refused(field, InvalidFormat)
    else
      var number := Number(values[field][0]);
      if 1 <= number <= maximum as int then Accepted(number as int64) else Refused(field, OutOfRange)
  }

  method ParsePaginationValue(values: map<string, seq<string>>, field: string, defaultValue: int64, maximum: int64)
    returns (parsed: Parsed)
    requires maximum >= 0
    ensures parsed == Meaning(values, field, defaultValue, maximum)
  {
    if field !in values { return Accepted(defaultValue); }
    var raw := values[field];
    if |raw| != 1 { return Refused(field, Duplicate); }
    var value := raw[0];
    var decimal := IsUnsignedDecimal(value);
    if value == "" || !decimal { return Refused(field, InvalidFormat); }
    var number, fits := ParseDigits(value);
    if !fits { return Refused(field, OutOfRange); }
    if number == 0 || number > maximum as uint64 { return Refused(field, OutOfRange); }
    return Accepted(number as int64);
  }

  datatype Paging = Paging(page: int64, pageSize: int64) | NoPaging(refusal: Parsed)

  /** Both fields in range, or the first refusal. */
  method ParsePagination(values: map<string, seq<string>>) returns (paging: Paging)
    ensures var page, size := Meaning(values, "page", 1, 10000), Meaning(values, "page_size", 20, 100);
      paging ==
      if page.Refused? then NoPaging(page)
      else if size.Refused? then NoPaging(size)
      else Paging(page.value, size.value)
    ensures paging.Paging? ==> 1 <= paging.page <= MAX_PAGE && 1 <= paging.pageSize <= MAX_PAGE_SIZE
  {
    var page := ParsePaginationValue(values, "page", DEFAULT_PAGE, MAX_PAGE);
    if page.Refused? { return NoPaging(page); }
    var pageSize := ParsePaginationValue(values, "page_size", DEFAULT_PAGE_SIZE, MAX_PAGE_SIZE);
    if pageSize.Refused? { return NoPaging(pageSize); }
    return Paging(page.value, pageSize.value);
  }

  /** Division that drops the fraction, as 64-bit machine division does. */
  function Quotient(a: int64, b: int64): int64
    requires b > 0
  {
    if a >= 0 then a / b else if a % b == 0 then a / b else a / b + 1
  }

  ghost predicate IsCeiling(pages: int, total: int, size: int) {
    (pages - 1) * size < total <= pages * size
  }

  /** The number of pages, without overflow; it is the exact ceiling unless a negative total is left uneven. */
  method TotalPages(total: int64, pageSize: int64) returns (pages: int64)
    requires pageSize > 0
    ensures IsCeiling(pages as int, total as int, pageSize as int) <==> total >= 0 || total % pageSize == 0
  {
    pages := Quotient(total, pageSize);
    var remainder := total - Quotient(total, pageSize) * pageSize;
    if remainder != 0 { pages := pages + 1; }
  }
}
