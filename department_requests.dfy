/**
 * components/rh/DepartmentRequestsTable.tsx: the requests the table shows,
 * filtered first by status and then by a search over the requester's name
 * and e-mail and the requested department's name, all compared in lower
 * case.
 */
module DepartmentRequests {
  import opened Text
  import opened Values

  datatype Requester = Requester(name: Option<string>, email: Option<string>)

  datatype RequestedDepartment = RequestedDepartment(name: Option<string>)

  /** A department change request, with the fields the filter reads. */
  datatype Request = Request(
    id: string, status: string, user: Option<Requester>,
    requestedDepartment: Option<RequestedDepartment>, requestedDepartmentName: Option<string>)

  /** `x?.toLowerCase() || ''` */
  function LowerOr(s: Option<string>): string {
    match s case Some(x) => Lower(x) case None => ""
  }

  /** The department name searched: the related department's, unless absent or empty, then the copied name. */
  function DepartmentName(r: Request): (d: string)
    ensures r.requestedDepartment.Some? && LowerOr(r.requestedDepartment.value.name) != "" ==>
      d == LowerOr(r.requestedDepartment.value.name)
    ensures (r.requestedDepartment.None? || LowerOr(r.requestedDepartment.value.name) == "") ==>
      d == LowerOr(r.requestedDepartmentName)
  {
    var primary := if r.requestedDepartment.Some? then LowerOr(r.requestedDepartment.value.name) else "";
    if primary != "" then primary else LowerOr(r.requestedDepartmentName)
  }

  /** `request.status === statusFilter`, or any status when the filter is empty or `all`. */
  predicate StatusPasses(r: Request, statusFilter: string) {
    statusFilter == "" || statusFilter == "all" || r.status == statusFilter
  }

  /** The search callback: the lowered term occurs in the lowered name, e-mail or department name. */
  predicate SearchPasses(r: Request, searchTerm: string) {
    var search := Lower(searchTerm);
    var userName := if r.user.Some? then LowerOr(r.user.value.name) else "";
    var userEmail := if r.user.Some? then LowerOr(r.user.value.email) else "";
    searchTerm == "" || Contains(userName, search) || Contains(userEmail, search) || Contains(DepartmentName(r), search)
  }

  /** `xs.filter(r => StatusPasses(r, statusFilter))` */
  function ByStatus(xs: seq<Request>, statusFilter: string): (ys: seq<Request>)
    ensures |ys| <= |xs|
    ensures forall y :: y in ys ==> y in xs && StatusPasses(y, statusFilter)
    ensures forall x :: x in xs && StatusPasses(x, statusFilter) ==> x in ys
    ensures forall x :: StatusPasses(x, statusFilter) ==> multiset(ys)[x] == multiset(xs)[x]
  {
    if xs == [] then []
    else
      assert xs == [xs[0]] + xs[1..];
      (if StatusPasses(xs[0], statusFilter) then [xs[0]] else []) + ByStatus(xs[1..], statusFilter)
  }

  /** `xs.filter(r => SearchPasses(r, searchTerm))` */
  function BySearch(xs: seq<Request>, searchTerm: string): (ys: seq<Request>)
    ensures |ys| <= |xs|
    ensures forall y :: y in ys ==> y in xs && SearchPasses(y, searchTerm)
    ensures forall x :: x in xs && SearchPasses(x, searchTerm) ==> x in ys
    ensures forall x :: SearchPasses(x, searchTerm) ==> multiset(ys)[x] == multiset(xs)[x]
  {
    if xs == [] then []
    else
      assert xs == [xs[0]] + xs[1..];
      (if SearchPasses(xs[0], searchTerm) then [xs[0]] else []) + BySearch(xs[1..], searchTerm)
  }

  /** The effect's `filtered`, an empty search or filter standing for an absent one. */
  function Filtered(data: seq<Request>, searchTerm: string, statusFilter: string): (ys: seq<Request>)
    ensures forall y :: y in ys <==> y in data && StatusPasses(y, statusFilter) && SearchPasses(y, searchTerm)
    ensures forall y :: y in ys ==> multiset(ys)[y] == multiset(data)[y]
  {
    var byStatus := if statusFilter != "" && statusFilter != "all" then ByStatus(data, statusFilter) else data;
    if searchTerm != "" then BySearch(byStatus, searchTerm) else byStatus
  }

  /** ys keeps some of the entries of xs, in their order. */
  predicate Subsequence(ys: seq<Request>, xs: seq<Request>)
    decreases |xs|
  {
    if ys == [] then true
    else if xs == [] then false
    else if ys[0] == xs[0] then Subsequence(ys[1..], xs[1..])
    else Subsequence(ys, xs[1..])
  }

  lemma {:induction false} SubsequenceRefl(xs: seq<Request>)
    ensures Subsequence(xs, xs)
    decreases |xs|
  {
    if xs != [] {
      SubsequenceRefl(xs[1..]);
    }
  }

  lemma {:induction false} SubsequenceTrans(zs: seq<Request>, ys: seq<Request>, xs: seq<Request>)
    requires Subsequence(zs, ys) && Subsequence(ys, xs)
    ensures Subsequence(zs, xs)
    decreases |xs|
  {
    if zs != [] && xs != [] {
      if ys[0] == xs[0] {
        if zs[0] == ys[0] {
          SubsequenceTrans(zs[1..], ys[1..], xs[1..]);
        } else {
          SubsequenceTrans(zs, ys[1..], xs[1..]);
          SubsequenceSkip(zs, xs);
        }
      } else {
        SubsequenceTrans(zs, ys, xs[1..]);
        SubsequenceSkip(zs, xs);
      }
    }
  }

  /** What is kept from the tail of xs is kept from xs. */
  lemma {:induction false} SubsequenceSkip(ys: seq<Request>, xs: seq<Request>)
    requires xs != [] && Subsequence(ys, xs[1..])
    ensures Subsequence(ys, xs)
    decreases |xs|, 0
  {
    if ys != [] && ys[0] == xs[0] {
      DropFirst(ys, xs[1..]);
    }
  }

  /** Dropping the first kept entry keeps the rest kept. */
  lemma {:induction false} DropFirst(ys: seq<Request>, xs: seq<Request>)
    requires ys != [] && Subsequence(ys, xs)
    ensures Subsequence(ys[1..], xs)
    decreases |xs|, 1
  {
    if ys[0] == xs[0] {
      SubsequenceSkip(ys[1..], xs);
    } else {
      DropFirst(ys, xs[1..]);
      SubsequenceSkip(ys[1..], xs);
    }
  }

  lemma {:induction false} ByStatusOrdered(xs: seq<Request>, statusFilter: string)
    ensures Subsequence(ByStatus(xs, statusFilter), xs)
    decreases |xs|
  {
    if xs != [] {
      ByStatusOrdered(xs[1..], statusFilter);
      var rest := ByStatus(xs[1..], statusFilter);
      if StatusPasses(xs[0], statusFilter) {
        assert ([xs[0]] + rest)[1..] == rest;
      } else {
        assert ByStatus(xs, statusFilter) == rest;
        SubsequenceSkip(rest, xs);
      }
    }
  }

  lemma {:induction false} BySearchOrdered(xs: seq<Request>, searchTerm: string)
    ensures Subsequence(BySearch(xs, searchTerm), xs)
    decreases |xs|
  {
    if xs != [] {
      BySearchOrdered(xs[1..], searchTerm);
      var rest := BySearch(xs[1..], searchTerm);
      if SearchPasses(xs[0], searchTerm) {
        assert ([xs[0]] + rest)[1..] == rest;
      } else {
        assert BySearch(xs, searchTerm) == rest;
        SubsequenceSkip(rest, xs);
      }
    }
  }

  /** The table shows some of the requests it was given, in the order it was given them. */
  lemma FilteredOrdered(data: seq<Request>, searchTerm: string, statusFilter: string)
    ensures Subsequence(Filtered(data, searchTerm, statusFilter), data)
  {
    var byStatus := if statusFilter != "" && statusFilter != "all" then ByStatus(data, statusFilter) else data;
    if statusFilter != "" && statusFilter != "all" {
      ByStatusOrdered(data, statusFilter);
    } else {
      SubsequenceRefl(data);
    }
    if searchTerm != "" {
      BySearchOrdered(byStatus, searchTerm);
      SubsequenceTrans(BySearch(byStatus, searchTerm), byStatus, data);
    }
  }

  /** With neither a status filter nor a search term every request is shown. */
  lemma NoFilterKeepsAll(data: seq<Request>)
    ensures Filtered(data, "", "") == data
    ensures Filtered(data, "", "all") == data
  {
  }
}
