/**
 * app/api/rh/employees/route.ts, the parts that are local logic: the page
 * arithmetic of GET, the way GET turns each user row into an employee, and
 * the required-field check of POST. The database queries are not modelled:
 * the rows and their count are inputs.
 */
module EmployeesRoute {
  import opened Text
  import opened Values
  import EmployeeUtils

  // ---- numbers ----

  /** A JavaScript number as the arithmetic here can produce it. */
  datatype Num = Finite(n: int) | NaN | Infinity

  function HexValue(c: char): (r: int)
    ensures -1 <= r < 16
  {
    if '0' <= c <= '9' then c as int - '0' as int
    else if 'a' <= c <= 'f' then c as int - 'a' as int + 10
    else if 'A' <= c <= 'F' then c as int - 'A' as int + 10
    else -1
  }

  /** The value of character c in base `radix` (10 or 16), or -1 when it is not a digit there. */
  function DigitIn(c: char, radix: nat): (r: int)
    requires radix == 10 || radix == 16
    ensures -1 <= r < radix
  {
    var v := HexValue(c);
    if v < radix then v else -1
  }

  /** The length of the run of base-`radix` digits that s starts with. */
  function DigitRun(s: string, radix: nat): (n: nat)
    requires radix == 10 || radix == 16
    ensures n <= |s|
    ensures forall i :: 0 <= i < n ==> DigitIn(s[i], radix) >= 0
    ensures n < |s| ==> DigitIn(s[n], radix) < 0
  {
    if s == [] || DigitIn(s[0], radix) < 0 then 0 else 1 + DigitRun(s[1..], radix)
  }

  /** The digits s starts with, read in base `radix` after the value `acc` read so far. */
  function ReadDigits(s: string, radix: nat, acc: nat): nat
    requires radix == 10 || radix == 16
  {
    if s == [] || DigitIn(s[0], radix) < 0 then acc
    else ReadDigits(s[1..], radix, acc * radix + DigitIn(s[0], radix))
  }

  /**
   * ECMAScript's StrWhiteSpaceChar, what `parseInt` skips: the white space
   * and line terminator code points (tab to carriage return, the Zs space
   * separators, U+FEFF, U+2028 and U+2029). Unlike Python's `isspace` it
   * excludes U+001C to U+001F and U+0085.
   */
  predicate JsSpace(c: char) {
    || c == ' '
    || ('\t' <= c <= '\r')
    || c == '\U{a0}' || c == '\U{1680}'
    || ('\U{2000}' <= c <= '\U{200a}')
    || c == '\U{2028}' || c == '\U{2029}' || c == '\U{202f}' || c == '\U{205f}' || c == '\U{3000}'
    || c == '\U{feff}'
  }

  /** The text after its leading white space: the longest suffix that does not start with white space. */
  function TrimLeadingSpace(s: string): (r: string)
    ensures |r| <= |s| && r == s[|s| - |r|..]
    ensures r == [] || !JsSpace(r[0])
    ensures forall i :: 0 <= i < |s| - |r| ==> JsSpace(s[i])
  {
    if s != [] && JsSpace(s[0]) then
      var r := TrimLeadingSpace(s[1..]);
      assert forall i :: 1 <= i < |s| - |r| ==> s[i] == s[1..][i - 1];
      r
    else s
  }

  /**
   * JavaScript's `parseInt(s)`: leading white space and a sign are skipped,
   * `0x` switches to base 16, and the longest run of digits that follows is
   * read; without a digit the result is NaN.
   */
  function ParseInt(s: string): (r: Num)
    ensures r != Infinity
  {
    ParseTrimmed(TrimLeadingSpace(s))
  }

  /** `parseInt` once the leading white space is gone: a sign, `0x`, then the digits. */
  function ParseTrimmed(t: string): (r: Num)
    ensures r != Infinity
  {
    var negative := t != [] && t[0] == '-';
    var u := if t != [] && (t[0] == '-' || t[0] == '+') then t[1..] else t;
    var hex := |u| >= 2 && u[0] == '0' && (u[1] == 'x' || u[1] == 'X');
    var radix := if hex then 16 else 10;
    var digits := if hex then u[2..] else u;
    if DigitRun(digits, radix) == 0 then NaN
    else
      var v: int := ReadDigits(digits, radix, 0);
      Finite(if negative then -v else v)
  }

  /** A run of decimal digits without a leading zero is read as its decimal value. */
  lemma ParseDecimal(d: string)
    requires d != [] && AllDigits(d) && d[0] != '0'
    ensures ParseInt(d) == Finite(DigitsValue(d))
  {
    ParseUnsigned(d);
    assert DigitRun(d, 10) > 0;
    ReadDecimal(d);
  }

  /** A leading white space character does not change what `parseInt` reads. */
  lemma ParseIntSkipsSpace(c: char, s: string)
    requires JsSpace(c)
    ensures ParseInt([c] + s) == ParseInt(s)
  {
    assert ([c] + s)[1..] == s;
    assert TrimLeadingSpace([c] + s) == TrimLeadingSpace(s);
  }

  /** A lone decimal digit is read as its value. */
  lemma ParseIntDigit(c: char)
    requires '0' <= c <= '9'
    ensures ParseInt([c]) == Finite(c as int - '0' as int)
  {
    ParseUnsigned([c]);
    assert DigitRun([c], 10) == 1 + DigitRun([], 10);
    assert ReadDigits([c], 10, 0) == ReadDigits([], 10, c as int - '0' as int);
  }

  /** A byte order mark is white space to `parseInt`, which reads the digit after it. */
  lemma ParseIntSkipsByteOrderMark()
    ensures ParseInt("\U{feff}5") == Finite(5)
  {
    ParseIntDigit('5');
    assert "\U{feff}5" == ['\U{feff}'] + "5";
    ParseIntSkipsSpace('\U{feff}', "5");
  }

  /** NEXT LINE (U+0085), white space to Python, is not to `parseInt`: nothing is read after it. */
  lemma ParseIntStopsAtNextLine()
    ensures ParseInt("\U{85}5") == NaN
  {
    var s := "\U{85}5";
    assert TrimLeadingSpace(s) == s;
    assert DigitIn(s[0], 10) < 0;
  }

  /** Nor is the separator U+001C. */
  lemma ParseIntStopsAtSeparator()
    ensures ParseInt("\U{1c}5") == NaN
  {
    var s := "\U{1c}5";
    assert TrimLeadingSpace(s) == s;
    assert DigitIn(s[0], 10) < 0;
  }

  /** Text that starts with a digit and not with `0x` is read in base 10 from its first character. */
  lemma ParseUnsigned(s: string)
    requires s != [] && IsDigit(s[0])
    requires !(|s| >= 2 && s[0] == '0' && (s[1] == 'x' || s[1] == 'X'))
    ensures ParseInt(s) == if DigitRun(s, 10) == 0 then NaN else Finite(ReadDigits(s, 10, 0))
  {
    assert !JsSpace(s[0]);
    assert TrimLeadingSpace(s) == s;
  }

  /** Reading decimal digits from the front gives the value `int()` reads from the back. */
  lemma {:induction false} ReadDecimal(d: string)
    requires AllDigits(d)
    ensures ReadDigits(d, 10, 0) == DigitsValue(d)
    decreases |d|
  {
    if d != [] {
      ReadLast(d, 0);
      ReadDecimal(d[..|d| - 1]);
    }
  }

  /** The last digit read is the units digit. */
  lemma {:induction false} ReadLast(d: string, acc: nat)
    requires d != [] && AllDigits(d)
    ensures ReadDigits(d, 10, acc) == ReadDigits(d[..|d| - 1], 10, acc) * 10 + DigitIn(d[|d| - 1], 10)
    decreases |d|
  {
    var acc' := acc * 10 + DigitIn(d[0], 10);
    if |d| > 1 {
      ReadLast(d[1..], acc');
      assert d[1..][..|d| - 2] == d[..|d| - 1][1..];
    }
  }

  /**
   * `parseInt(searchParams.get(key) || fallback)`: a missing or empty
   * parameter reads the fallback's text, which DefaultsParse shows reads as
   * the fallback itself.
   */
  function QueryInt(param: Option<string>, fallback: nat): (r: Num)
    ensures param.None? || param.value == "" ==> r == Finite(fallback)
    ensures param.Some? && param.value != "" ==> r == ParseInt(param.value)
  {
    if param.None? || param.value == "" then Finite(fallback) else ParseInt(param.value)
  }

  function Sub(a: Num, b: int): Num {
    match a case Finite(x) => Finite(x - b) case _ => a
  }

  function Mul(a: Num, b: Num): Num {
    if a.Finite? && b.Finite? then Finite(a.n * b.n) else NaN
  }

  /** The page and limit a request asks for, with their defaults 1 and 10, and the rows skipped. */
  datatype Paging = Paging(page: Num, limit: Num, skip: Num)

  /** `page`, `limit` and `skip = (page - 1) * limit` of GET. */
  function PagingOf(pageParam: Option<string>, limitParam: Option<string>): (r: Paging)
    ensures r.page.Finite? && r.limit.Finite? ==> r.skip == Finite((r.page.n - 1) * r.limit.n)
    ensures r.page.NaN? || r.limit.NaN? ==> r.skip == NaN
  {
    var page := QueryInt(pageParam, 1);
    var limit := QueryInt(limitParam, 10);
    Paging(page, limit, Mul(Sub(page, 1), limit))
  }

  /** Without page and limit parameters the first ten rows are asked for. */
  lemma PagingDefaults(pageParam: Option<string>, limitParam: Option<string>)
    requires pageParam.None? || pageParam.value == ""
    requires limitParam.None? || limitParam.value == ""
    ensures PagingOf(pageParam, limitParam) == Paging(Finite(1), Finite(10), Finite(0))
  {
  }

  /** The default texts "1" and "10" read as 1 and 10. */
  lemma DefaultsParse()
    ensures ParseInt("1") == Finite(1) && ParseInt("10") == Finite(10)
  {
    var one, ten := "1", "10";
    assert AllDigits(one) && AllDigits(ten);
    assert DigitsValue(one) == 1;
    assert ten[..1] == one;
    assert DigitsValue(ten) == 10;
    ParseDecimal(one);
    ParseDecimal(ten);
  }

  /** `Math.ceil(total / limit)` for a row count and a parsed limit. */
  function TotalPages(total: nat, limit: Num): (r: Num)
    ensures limit.Finite? && limit.n > 0 ==> r.Finite? && r.n >= 0
    ensures limit == Finite(0) ==> r == (if total == 0 then NaN else Infinity)
  {
    match limit
    case Finite(l) =>
      if l > 0 then Finite((total + l - 1) / l)
      else if l == 0 then (if total == 0 then NaN else Infinity)
      else Finite(-(total / -l))
    case _ => NaN
  }

  /** With a positive limit the pages hold every row, the last page is not empty, and no rows means no pages. */
  lemma TotalPagesCover(total: nat, limit: nat)
    requires limit > 0
    ensures var p := TotalPages(total, Finite(limit)).n;
      && total <= p * limit
      && (p > 0 ==> (p - 1) * limit < total)
      && (p == 0 <==> total == 0)
  {
    var p := (total + limit - 1) / limit;
    var q := total / limit;
    var m := total % limit;
    assert total == q * limit + m;
    if m == 0 {
      DivIs(total + limit - 1, limit, q, limit - 1);
      assert (q - 1) * limit == q * limit - limit;
    } else {
      assert total + limit - 1 == (q + 1) * limit + (m - 1);
      DivIs(total + limit - 1, limit, q + 1, m - 1);
      assert (q + 1) * limit == q * limit + limit;
    }
  }

  /** Euclidean division is determined by quotient and remainder. */
  lemma DivIs(x: int, d: int, q: int, r: int)
    requires d > 0 && 0 <= r < d && x == q * d + r
    ensures x / d == q
  {
    var q', r' := x / d, x % d;
    assert (q' - q) * d == r - r' by {
      assert q' * d + r' == q * d + r;
      MulSub(q', q, d);
    }
    if q' - q >= 1 {
      MulAtLeast(q' - q, d);
    } else if q - q' >= 1 {
      MulAtLeast(q - q', d);
      MulSub(q, q', d);
    }
  }

  lemma MulSub(a: int, b: int, d: int)
    ensures (a - b) * d == a * d - b * d
  {
  }

  lemma MulAtLeast(k: int, d: int)
    requires k >= 1 && d > 0
    ensures k * d >= d
  {
  }

  /** Each page from the first to the last starts at a row that exists. */
  lemma PagesWithinTotal(total: nat, limit: nat, page: nat)
    requires limit > 0 && 1 <= page <= TotalPages(total, Finite(limit)).n
    ensures 0 <= (page - 1) * limit < total
  {
    var p := TotalPages(total, Finite(limit)).n;
    TotalPagesCover(total, limit);
    MulMono(page - 1, p - 1, limit);
    MulMono(0, page - 1, limit);
  }

  /** Page and limit written in decimal are read back, and the rows before the page skipped. */
  lemma SkipOfTexts(page: nat, limit: nat)
    ensures PagingOf(Some(IntToString(page)), Some(IntToString(limit))).skip == Finite((page - 1) * limit)
  {
    ParseNat(page);
    ParseNat(limit);
  }

  lemma MulMono(a: nat, b: nat, c: nat)
    requires a <= b
    ensures a * c <= b * c
  {
  }

  /** The decimal text of a natural number parses back to it. */
  lemma ParseNat(n: nat)
    ensures IntToString(n) != "" && ParseInt(IntToString(n)) == Finite(n)
  {
    var d := NatToString(n);
    if d[0] == '0' {
      ZeroText(n);
      assert d == "0";
      ParseUnsigned(d);
      assert ReadDigits(d, 10, 0) == ReadDigits([], 10, 0);
    } else {
      ParseDecimal(d);
      DigitsValueOfNatToString(n);
    }
  }

  /** Only zero is written with a leading zero. */
  lemma {:induction false} ZeroText(n: nat)
    requires NatToString(n)[0] == '0'
    ensures n == 0
    decreases n
  {
    if n >= 10 {
      assert NatToString(n)[0] == NatToString(n / 10)[0];
      ZeroText(n / 10);
    } else {
      assert NatToString(n) == [DigitChar(n)];
    }
  }

  // ---- the employee transform ----

  datatype Department = Department(id: string, name: string)

  /** A user row as the query returns it, with its role names. */
  datatype UserRow = UserRow(
    id: string, name: Option<string>, email: Option<string>, jobTitle: Option<string>,
    roles: Option<seq<string>>, managerId: EmployeeUtils.Nullable<string>, department: Option<Department>,
    entryDate: Option<string>)

  datatype Employee = Employee(
    id: string, firstName: string, lastName: string, email: string, department: Department,
    positionId: string, positionTitle: string, status: string, hireDate: string,
    phone: string, address: string, roles: seq<string>)

  /** `nameParts[0] || ''` and `nameParts.slice(1).join(' ') || ''` from `user.name?.split(' ') || ['', '']`. */
  function SplitName(name: Option<string>): (r: (string, string))
    ensures name.None? ==> r == ("", "")
  {
    match name
    case None => ("", "")
    case Some(s) =>
      var parts := Split(s, ' ');
      (parts[0], Join(parts[1..], ' '))
  }

  /** A name with a space is cut at its first space; one without is all first name. */
  lemma SplitNameParts(s: string)
    ensures ' ' in s ==> SplitName(Some(s)).0 + " " + SplitName(Some(s)).1 == s && ' ' !in SplitName(Some(s)).0
    ensures ' ' !in s ==> SplitName(Some(s)) == (s, "")
  {
    var parts := Split(s, ' ');
    SplitCount(s, ' ');
    JoinSplit(s, ' ');
    if ' ' in s {
      JoinCons(parts[0], parts[1..], ' ');
      assert parts == [parts[0]] + parts[1..];
      FirstPieceHasNoSeparator(s, ' ');
    }
  }

  /** The first piece of a split ends before the first separator. */
  lemma {:induction false} FirstPieceHasNoSeparator(s: string, d: char)
    ensures d !in Split(s, d)[0]
    decreases |s|
  {
    if s != [] && s[0] != d {
      FirstPieceHasNoSeparator(s[1..], d);
    }
  }

  predicate Truthy(s: Option<string>) {
    s.Some? && s.value != ""
  }

  /** The position id: a job title of the form `pos_...` is itself the id. */
  function PositionId(jobTitle: Option<string>): (r: string)
    ensures Truthy(jobTitle) && "pos_" <= jobTitle.value ==> r == jobTitle.value
    ensures !(Truthy(jobTitle) && "pos_" <= jobTitle.value) ==> r == "pos_default"
  {
    if Truthy(jobTitle) && "pos_" <= jobTitle.value then jobTitle.value else "pos_default"
  }

  /** The roles an employee without role rows is given, from what the row says of them. */
  function DefaultRoles(u: UserRow): (r: seq<string>)
    ensures u.managerId == EmployeeUtils.Null ==> r == ["MANAGER", "DEPT_MANAGER"]
    ensures u.managerId != EmployeeUtils.Null && Truthy(u.jobTitle) && Contains(Lower(u.jobTitle.value), "manager") ==> r == ["MANAGER"]
    ensures u.managerId != EmployeeUtils.Null && !(Truthy(u.jobTitle) && Contains(Lower(u.jobTitle.value), "manager")) ==>
      r == (if Truthy(u.email) && Contains(u.email.value, "admin") then ["ADMIN"] else ["EMPLOYEE"])
  {
    if u.managerId == EmployeeUtils.Null then ["MANAGER", "DEPT_MANAGER"]
    else if Truthy(u.jobTitle) && Contains(Lower(u.jobTitle.value), "manager") then ["MANAGER"]
    else if Truthy(u.email) && Contains(u.email.value, "admin") then ["ADMIN"]
    else ["EMPLOYEE"]
  }

  function OrEmpty(s: Option<string>): string {
    match s case Some(x) => x case None => ""
  }

  /** The callback of `users.map`; `now` stands for `new Date().toISOString()`. */
  function ToEmployee(u: UserRow, now: string): (e: Employee)
    ensures e.id == u.id && e.status == "ACTIVE" && e.phone == "" && e.address == ""
    ensures e.positionId == PositionId(u.jobTitle)
    ensures e.positionTitle == (if Truthy(u.jobTitle) then u.jobTitle.value else "Unassigned")
    ensures e.department == (if u.department.Some? then u.department.value else Department("", "Unassigned"))
    ensures e.email == OrEmpty(u.email)
    ensures e.hireDate == (if u.entryDate.Some? then u.entryDate.value else now)
    ensures (e.firstName, e.lastName) == SplitName(u.name)
    ensures var given := if u.roles.Some? then u.roles.value else [];
      e.roles == (if given == [] then DefaultRoles(u) else given)
    ensures e.roles != []
  {
    var (first, last) := SplitName(u.name);
    var given := if u.roles.Some? then u.roles.value else [];
    Employee(u.id, first, last, OrEmpty(u.email),
             if u.department.Some? then u.department.value else Department("", "Unassigned"),
             PositionId(u.jobTitle), if Truthy(u.jobTitle) then u.jobTitle.value else "Unassigned",
             "ACTIVE", if u.entryDate.Some? then u.entryDate.value else now, "", "",
             if given == [] then DefaultRoles(u) else given)
  }

  /** `users.map(...)`: one employee per row, in the rows' order. */
  function Employees(users: seq<UserRow>, now: string): (es: seq<Employee>)
    ensures |es| == |users|
    ensures forall i :: 0 <= i < |users| ==> es[i] == ToEmployee(users[i], now)
  {
    seq(|users|, i requires 0 <= i < |users| => ToEmployee(users[i], now))
  }

  // ---- POST ----

  const RequiredFields := ["firstName", "lastName", "email", "departmentId", "positionId"]

  /** `body[field]`, undefined when absent or when the body is not an object. */
  function Member(body: Json, field: string): Option<Json> {
    if body.JObj? then Lookup(body.fields, field) else None
  }

  predicate Present(body: Json, field: string) {
    Member(body, field).Some? && EmployeeUtils.JsTruthy(Member(body, field).value)
  }

  /** The first of `fields` whose value is falsy or missing, if any. */
  function FirstMissing(body: Json, fields: seq<string>): (r: Option<nat>)
    ensures r.Some? ==> r.value < |fields| && !Present(body, fields[r.value])
                        && forall j :: 0 <= j < r.value ==> Present(body, fields[j])
    ensures r.None? ==> forall j :: 0 <= j < |fields| ==> Present(body, fields[j])
  {
    if fields == [] then None
    else if !Present(body, fields[0]) then Some(0)
    else match FirstMissing(body, fields[1..])
      case None => None
      case Some(k) => Some(k + 1)
  }

  /**
   * The required-field check of POST: `Some(message)` is the 400 reply, and
   * a null body fails with the generic 500 reply because reading a field of
   * null throws.
   */
  function CheckRequired(body: Json): (r: Outcome<Option<string>>)
    ensures body == JNull ==> r == Raise("Failed to create employee")
    ensures body != JNull && r.Ok? && r.value.Some? ==>
      exists k :: 0 <= k < |RequiredFields| && r.value.value == "Missing required field: " + RequiredFields[k]
        && !Present(body, RequiredFields[k]) && forall j :: 0 <= j < k ==> Present(body, RequiredFields[j])
    ensures body != JNull ==> r.Ok? && (r.value.None? <==> forall j :: 0 <= j < |RequiredFields| ==> Present(body, RequiredFields[j]))
  {
    if body == JNull then Raise("Failed to create employee")
    else match FirstMissing(body, RequiredFields)
      case None => Ok(None)
      case Some(k) => Ok(Some("Missing required field: " + RequiredFields[k]))
  }
}
