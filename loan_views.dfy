/** The loan workflow views: `loan_create`, which stores a new application for a member and
    remembers it in the session, and `loan_approval`, which records an approval and marks the
    loan approved. */
module LoanViews {
  import opened Wrappers
  import opened Records

  /** The cleaned data of `LoanInfoForm`: every loan column but member, status and created_at. */
  datatype LoanForm = LoanForm(
    loanType: string,
    interestRate: real,
    loanDuration: string,
    repaymentDuration: string,
    loanAmount: string,
    loanAmountInWords: string,
    loanCompletionYear: string,
    loanCompletionMonth: string,
    loanCompletionDay: string)

  /** The cleaned data of `ApprovalForm`: every approval column but member, entered_by and
      entered_post. */
  datatype ApprovalForm = ApprovalForm(
    approvalDate: string,
    approvedBy: string,
    approverPost: string,
    remarks: string,
    approvedLoanAmount: string,
    approvedLoanAmountWords: string)

  /** A request as a view sees it: a GET, or a POST whose form either validates, giving its
      cleaned data, or does not (`None`). */
  datatype Request<T> = Get | Post(cleaned: Option<T>)

  /** What a view returns: a 404, a rendered page, or a redirect to a URL name with the keyword
      arguments it is reversed with. */
  datatype Response = NotFound | Render(template: string) | Redirect(target: string, kwargs: map<string, string>)

  /** The two session keys the workflow writes. */
  datatype Session = Session(currentLoanId: Option<int>, memberNumber: Option<string>)

  /** What the two views read and write: the member numbers on file, the loans by id, the id the
      database gives the next loan, the approvals, the session and the queued messages. */
  datatype Desk = Desk(
    members: set<string>,
    loans: map<int, Loan>,
    nextId: int,
    approvals: seq<Approval>,
    session: Session,
    messages: seq<string>)

  datatype Step = Step(desk: Desk, response: Response)

  /** What the database guarantees: every id is below the next one to be given out, and every
      loan and approval points at a stored member. */
  predicate Consistent(d: Desk)
  {
    (forall id :: id in d.loans ==> id < d.nextId && d.loans[id].member in d.members)
    && (forall i :: 0 <= i < |d.approvals| ==> d.approvals[i].member in d.members)
  }

  const LoanSavedText := "Loan application saved successfully!"
  const LoanApprovedText := "Loan approved successfully"
  const LoanFormPage := "loans/loan_form.html"
  const ApprovalPage := "loans/loan_approval.html"
  const CollateralFormUrl := "collateral:basic_form"
  /** The keyword of the collateral form's URL pattern, `<str:member_number>/basic/`. */
  const MemberNumberArg := "member_number"
  const LoanListUrl := "loans:loan_list"

  /** The loan `form.save(commit=False)` builds, once the view has set its member and the
      database its defaults: status pending, created now. */
  function NewLoan(n: string, f: LoanForm, now: int): Loan
  {
    Loan(n, f.loanType, f.interestRate, f.loanDuration, f.repaymentDuration, f.loanAmount,
         f.loanAmountInWords, f.loanCompletionYear, f.loanCompletionMonth, f.loanCompletionDay,
         Pending, now)
  }

  /** The form columns of a stored loan. */
  function FormOf(l: Loan): LoanForm
  {
    LoanForm(l.loanType, l.interestRate, l.loanDuration, l.repaymentDuration, l.loanAmount,
             l.loanAmountInWords, l.loanCompletionYear, l.loanCompletionMonth, l.loanCompletionDay)
  }

  /** The approval the view saves for `loan`: the form's columns, the loan's member, and the
      logged-in user as the one who entered it. */
  function NewApproval(loan: Loan, f: ApprovalForm, user: User): Approval
  {
    Approval(loan.member, f.approvalDate, EnteredBy(user), EnteredPost(user), f.approvedBy,
             f.approverPost, f.remarks, f.approvedLoanAmount, f.approvedLoanAmountWords)
  }

  /** `loan_create` for member `n` at time `now`. */
  function CreateStep(d: Desk, n: string, req: Request<LoanForm>, now: int): Step
  {
    if n !in d.members then Step(d, NotFound)
    else if req.Get? || req.cleaned.None? then Step(d, Render(LoanFormPage))
    else
      var id := d.nextId;
      Step(d.(loans := d.loans[id := NewLoan(n, req.cleaned.value, now)],
              nextId := id + 1,
              session := Session(Some(id), Some(n)),
              messages := d.messages + [LoanSavedText]),
           Redirect(CollateralFormUrl, map[MemberNumberArg := n]))
  }

  /** `loan_approval` for the loan with id `id`, by `user`. */
  function ApprovalStep(d: Desk, id: int, req: Request<ApprovalForm>, user: User): Step
  {
    if id !in d.loans then Step(d, NotFound)
    else if req.Get? || req.cleaned.None? then Step(d, Render(ApprovalPage))
    else
      var loan := d.loans[id];
      Step(d.(approvals := d.approvals + [NewApproval(loan, req.cleaned.value, user)],
              loans := d.loans[id := loan.(status := Approved)],
              messages := d.messages + [LoanApprovedText]),
           Redirect(LoanListUrl, map[]))
  }

  // ---------------------------------------------------------------- loan_create

  /** A valid POST for a known member adds exactly one loan, under a new id, holding the form's
      columns, pointing at that member and pending; nothing else in the tables changes, and the
      session remembers the new loan and its member. */
  lemma CreateAddsPendingLoan(d: Desk, n: string, f: LoanForm, now: int)
    requires Consistent(d) && n in d.members
    ensures var d' := CreateStep(d, n, Post(Some(f)), now).desk;
            var id := d.nextId;
            id !in d.loans && d'.loans.Keys == d.loans.Keys + {id}
            && d'.loans[id].member == n && d'.loans[id].status == Pending
            && FormOf(d'.loans[id]) == f && d'.loans[id].createdAt == now
            && (forall k :: k in d.loans ==> d'.loans[k] == d.loans[k])
            && d'.members == d.members && d'.approvals == d.approvals
            && d'.session == Session(Some(id), Some(n))
  {
  }

  /** After a successful create, the session's current loan is a stored loan of the session's
      member, which is what the next steps of the application rely on. */
  lemma CreateSessionPointsAtLoan(d: Desk, n: string, f: LoanForm, now: int)
    requires n in d.members
    ensures var d' := CreateStep(d, n, Post(Some(f)), now).desk;
            d'.session.currentLoanId.Some? && d'.session.memberNumber == Some(n)
            && d'.session.currentLoanId.value in d'.loans
            && d'.loans[d'.session.currentLoanId.value].member == n
  {
  }

  /** A successful create sends the user on to the basic collateral form of the member the loan
      was created for, the member the session now names. */
  lemma CreateOpensCollateralForm(d: Desk, n: string, f: LoanForm, now: int)
    requires n in d.members
    ensures var s := CreateStep(d, n, Post(Some(f)), now);
            s.response.Redirect? && s.response.target == CollateralFormUrl
            && s.response.kwargs.Keys == {MemberNumberArg}
            && Some(s.response.kwargs[MemberNumberArg]) == s.desk.session.memberNumber
            && s.desk.loans[s.desk.session.currentLoanId.value].member == s.response.kwargs[MemberNumberArg]
  {
  }

  /** An unknown member is not found and a GET or an invalid form only renders the page;
      neither writes anything. */
  lemma CreateWritesNothingOtherwise(d: Desk, n: string, req: Request<LoanForm>, now: int)
    requires n !in d.members || req.Get? || req.cleaned.None?
    ensures CreateStep(d, n, req, now).desk == d
    ensures CreateStep(d, n, req, now).response
            == if n !in d.members then NotFound else Render(LoanFormPage)
  {
  }

  /** Creating a loan keeps the database consistent. */
  lemma CreateKeepsConsistent(d: Desk, n: string, req: Request<LoanForm>, now: int)
    requires Consistent(d)
    ensures Consistent(CreateStep(d, n, req, now).desk)
  {
  }

  // ---------------------------------------------------------------- loan_approval

  /** A valid POST for a stored loan appends exactly one approval, for the loan's member, entered
      by the user's Nepali name (or user name) and post (or "Officer"), and sets that loan's
      status to approved whatever it was; no other loan and no other column changes. */
  lemma ApprovalAppendsOne(d: Desk, id: int, f: ApprovalForm, user: User)
    requires id in d.loans
    ensures var d' := ApprovalStep(d, id, Post(Some(f)), user).desk;
            var a := d'.approvals[|d'.approvals| - 1];
            |d'.approvals| == |d.approvals| + 1 && d'.approvals[..|d.approvals|] == d.approvals
            && a.member == d.loans[id].member
            && a.enteredBy == (if user.fullNameNepali.Some? && user.fullNameNepali.value != ""
                               then user.fullNameNepali.value else user.username)
            && a.enteredPost == (if user.post.Some? && user.post.value != "" then user.post.value
                                 else "Officer")
            && a.approvedBy == f.approvedBy && a.approverPost == f.approverPost
            && a.approvalDate == f.approvalDate && a.remarks == f.remarks
            && a.approvedLoanAmount == f.approvedLoanAmount
            && a.approvedLoanAmountWords == f.approvedLoanAmountWords
            && d'.loans.Keys == d.loans.Keys
            && d'.loans[id] == d.loans[id].(status := Approved)
            && (forall k :: k in d.loans && k != id ==> d'.loans[k] == d.loans[k])
            && d'.members == d.members && d'.nextId == d.nextId && d'.session == d.session
  {
  }

  /** An unknown loan is not found and a GET or an invalid form only renders the page; neither
      writes anything. */
  lemma ApprovalWritesNothingOtherwise(d: Desk, id: int, req: Request<ApprovalForm>, user: User)
    requires id !in d.loans || req.Get? || req.cleaned.None?
    ensures ApprovalStep(d, id, req, user).desk == d
    ensures ApprovalStep(d, id, req, user).response
            == if id !in d.loans then NotFound else Render(ApprovalPage)
  {
  }

  /** Approving keeps the database consistent: the new approval points at a stored member. */
  lemma ApprovalKeepsConsistent(d: Desk, id: int, req: Request<ApprovalForm>, user: User)
    requires Consistent(d)
    ensures Consistent(ApprovalStep(d, id, req, user).desk)
  {
    var d' := ApprovalStep(d, id, req, user).desk;
    if id in d.loans && req.Post? && req.cleaned.Some? {
      assert forall i :: 0 <= i < |d.approvals| ==> d'.approvals[i] == d.approvals[i];
    }
  }

  /** The two steps of the workflow in a row: the loan the session remembers after a create can
      be approved, and the approval then belongs to the member the loan was created for. */
  lemma CreateThenApprove(d: Desk, n: string, f: LoanForm, now: int, af: ApprovalForm, user: User)
    requires n in d.members
    ensures var d1 := CreateStep(d, n, Post(Some(f)), now).desk;
            var id := d1.session.currentLoanId.value;
            var d2 := ApprovalStep(d1, id, Post(Some(af)), user).desk;
            d2.loans[id].status == Approved && d2.loans[id].member == n
            && d2.approvals == d.approvals + [NewApproval(d1.loans[id], af, user)]
            && d2.approvals[|d.approvals|].member == n
  {
    CreateSessionPointsAtLoan(d, n, f, now);
  }

  // ---------------------------------------------------------------- the stateful views

  /** The tables and the session the two views change in place. */
  class LoanDesk {
    var members: set<string>
    var loans: map<int, Loan>
    var nextId: int
    var approvals: seq<Approval>
    var session: Session
    var messages: seq<string>

    function State(): Desk
      reads this
    {
      Desk(members, loans, nextId, approvals, session, messages)
    }

    constructor(d: Desk)
      ensures State() == d
    {
      members := d.members;
      loans := d.loans;
      nextId := d.nextId;
      approvals := d.approvals;
      session := d.session;
      messages := d.messages;
    }

    /** `loan_create(request, member_number)` at time `now`. */
    method LoanCreate(n: string, req: Request<LoanForm>, now: int) returns (response: Response)
      modifies this
      ensures var s := CreateStep(old(State()), n, req, now);
              State() == s.desk && response == s.response
    {
      if n !in members {
        return NotFound;
      }
      if req.Get? || req.cleaned.None? {
        return Render(LoanFormPage);
      }
      var loan := NewLoan(n, req.cleaned.value, now);
      var id := nextId;
      loans := loans[id := loan];
      nextId := nextId + 1;
      messages := messages + [LoanSavedText];
      session := session.(currentLoanId := Some(id));
      session := session.(memberNumber := Some(n));
      return Redirect(CollateralFormUrl, map[MemberNumberArg := n]);
    }

    /** `loan_approval(request, loan_id)` by `user`: the approval is saved first, then the
        loan's status. */
    method LoanApproval(id: int, req: Request<ApprovalForm>, user: User) returns (response: Response)
      modifies this
      ensures var s := ApprovalStep(old(State()), id, req, user);
              State() == s.desk && response == s.response
    {
      if id !in loans {
        return NotFound;
      }
      if req.Get? || req.cleaned.None? {
        return Render(ApprovalPage);
      }
      var loan := loans[id];
      var approval := NewApproval(loan, req.cleaned.value, user);
      approvals := approvals + [approval];
      loan := loan.(status := Approved);
      loans := loans[id := loan];
      messages := messages + [LoanApprovedText];
      return Redirect(LoanListUrl, map[]);
    }
  }
}
