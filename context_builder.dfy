/** The report context builder (reports/context_builder.py): a read-only projection of one
    member's stored records onto the flat dictionary the report templates are rendered with. */
module ContextBuilder {
  import opened Wrappers
  import opened Seqs
  import opened Records

  /** The tables the builder reads; each sequence is in query order. Members are keyed by their
      member number, and every other record points at its member by that number. */
  datatype Store = Store(
    members: map<string, Member>,
    loans: seq<Loan>,
    approvals: seq<Approval>,
    collateralBasics: seq<CollateralBasic>,
    properties: seq<CollateralProperty>,
    familyDetails: seq<CollateralFamilyDetail>,
    incomeExpenses: seq<CollateralIncomeExpense>,
    projects: seq<ProjectDetail>,
    witnesses: seq<Witness>,
    guarantors: seq<Guarantor>,
    organizations: seq<OrganizationProfile>)

  // ---------------------------------------------------------------- the member's records

  function LoansOf(st: Store, n: string): seq<Loan>
  {
    Filter(st.loans, (l: Loan) => l.member == n)
  }

  function ApprovalsOf(st: Store, n: string): seq<Approval>
  {
    Filter(st.approvals, (a: Approval) => a.member == n)
  }

  function CollateralBasicsOf(st: Store, n: string): seq<CollateralBasic>
  {
    Filter(st.collateralBasics, (c: CollateralBasic) => c.member == n)
  }

  function PropertiesOf(st: Store, n: string): seq<CollateralProperty>
  {
    Filter(st.properties, (p: CollateralProperty) => p.member == n)
  }

  function FamilyDetailsOf(st: Store, n: string): seq<CollateralFamilyDetail>
  {
    Filter(st.familyDetails, (f: CollateralFamilyDetail) => f.member == n)
  }

  function IncomeExpensesOf(st: Store, n: string): seq<CollateralIncomeExpense>
  {
    Filter(st.incomeExpenses, (e: CollateralIncomeExpense) => e.member == n)
  }

  function ProjectsOf(st: Store, n: string): seq<ProjectDetail>
  {
    Filter(st.projects, (p: ProjectDetail) => p.member == n)
  }

  function WitnessesOf(st: Store, n: string): seq<Witness>
  {
    Filter(st.witnesses, (w: Witness) => w.member == n)
  }

  function GuarantorsOf(st: Store, n: string): seq<Guarantor>
  {
    Filter(st.guarantors, (g: Guarantor) => g.member == n)
  }

  /** `.first()`: the first record in query order, if any. */
  function First<T>(s: seq<T>): Option<T>
  {
    if s == [] then None else Some(s[0])
  }

  /** `.latest('created_at')`: a loan with the greatest creation time. Among loans created at the
      same instant it takes the first in query order. */
  function Latest(loans: seq<Loan>): (r: Loan)
    requires loans != []
    ensures r in loans
    ensures forall l :: l in loans ==> l.createdAt <= r.createdAt
  {
    if |loans| == 1 then loans[0]
    else
      var rest := Latest(loans[1..]);
      if loans[0].createdAt >= rest.createdAt then loans[0] else rest
  }

  // ---------------------------------------------------------------- the context

  datatype PropertyEntry = PropertyEntry(
    ownerName: string, district: string, municipalityVdc: string, wardNo: string,
    plotNo: string, area: string, landType: string)

  datatype FamilyEntry = FamilyEntry(
    name: string, age: string, relation: string, occupation: string, monthlyIncome: string)

  /** One `{'field': …, 'amount': …}` line of the income or expense list. */
  datatype AmountEntry = AmountEntry(field: string, amount: string)

  datatype ProjectEntry = ProjectEntry(
    projectName: string, selfInvestment: string, requestedLoanAmount: string, totalCost: string,
    remarks: string)

  datatype WitnessEntry = WitnessEntry(witnessName: string, relation: string, ward: string, age: string)

  datatype GuarantorEntry = GuarantorEntry(
    guarantorName: string, guarantorAddress: string, guarantorPhone: string,
    guarantorCitizenship: string, guarantorAge: string)

  /** The dictionary handed to the templates, one field per key. */
  datatype LoanApplicationContext = LoanApplicationContext(
    companyName: string,
    companyAddress: string,
    memberNumber: string,
    memberName: string,
    phone: string,
    email: string,
    citizenshipNo: string,
    fatherName: string,
    grandfatherName: string,
    spouseName: string,
    address: string,
    wardNo: string,
    profession: string,
    loanType: string,
    interestRate: real,
    loanDuration: string,
    repaymentDuration: string,
    loanAmount: string,
    loanAmountInWords: string,
    loanCompletionYear: string,
    loanCompletionMonth: string,
    loanCompletionDay: string,
    approvalDate: string,
    enteredBy: string,
    enteredPost: string,
    approvedBy: string,
    approverPost: string,
    approvedLoanAmount: string,
    approvedLoanAmountWords: string,
    remarks: string,
    monthlySaving: string,
    childSaving: string,
    totalSaving: string,
    shareAmount: string,
    properties: seq<PropertyEntry>,
    familyMembers: seq<FamilyEntry>,
    incomeItems: seq<AmountEntry>,
    expenseItems: seq<AmountEntry>,
    projects: seq<ProjectEntry>,
    witnesses: seq<WitnessEntry>,
    guarantors: seq<GuarantorEntry>)

  /** The source reads `p.municipaliy_vdc`, a name `CollateralProperty` does not have (its column
      is `municipality_vdc`); the model reads the column evidently meant. */
  function PropertyEntryOf(p: CollateralProperty): PropertyEntry
  {
    PropertyEntry(p.ownerName, p.district, p.municipalityVdc, p.wardNo, p.plotNo, p.area, p.landType)
  }

  function FamilyEntryOf(f: CollateralFamilyDetail): FamilyEntry
  {
    FamilyEntry(f.name, f.age, f.relation, f.occupation, f.monthlyIncome)
  }

  function AmountEntryOf(e: CollateralIncomeExpense): AmountEntry
  {
    AmountEntry(e.field, e.amount)
  }

  predicate IsIncome(e: CollateralIncomeExpense)
  {
    e.kind == "income"
  }

  predicate IsExpense(e: CollateralIncomeExpense)
  {
    e.kind == "expense"
  }

  /** The source reads `p.requested_loan_amount` and `p.total_cost`, names `ProjectDetail` does
      not have (its columns are `request_loan_amount` and `total_budget_for_project`); the model
      reads the columns evidently meant. */
  function ProjectEntryOf(p: ProjectDetail): ProjectEntry
  {
    ProjectEntry(p.projectName, p.selfInvestment, p.requestLoanAmount, p.totalBudgetForProject,
                 OrElse(p.remarks, ""))
  }

  function WitnessEntryOf(w: Witness): WitnessEntry
  {
    WitnessEntry(w.name, w.relation, w.ward, w.age)
  }

  /** The source reads `g.gurantor_age`, a name `GuarantorDetails` does not have (its column is
      `guarantor_age`); the model reads the column evidently meant. */
  function GuarantorEntryOf(g: Guarantor): GuarantorEntry
  {
    GuarantorEntry(g.guarantorName, g.guarantorAddress, g.guarantorPhone, g.guarantorCitizenship,
                   g.guarantorAge)
  }

  /** The context of member `m` with number `n` and loan `loan`. The source reads
      `member.add_to_class` for the address, which raises (see `BuildAsWritten`); the model reads
      the `address` column evidently meant. */
  function ContextOf(st: Store, n: string, m: Member, loan: Loan,
                     enteredBy: string, enteredPost: string, approvedBy: string, approverPost: string)
    : LoanApplicationContext
  {
    var org := First(st.organizations);
    var approval := First(ApprovalsOf(st, n));
    var basic := First(CollateralBasicsOf(st, n));
    var records := IncomeExpensesOf(st, n);
    LoanApplicationContext(
      if org.Some? then org.value.companyName else "",
      if org.Some? then org.value.address else "",
      n,
      m.memberName,
      OrElse(m.phone, ""),
      OrElse(m.email, ""),
      OrElse(m.citizenshipNo, ""),
      OrElse(m.fatherName, ""),
      OrElse(m.grandfatherName, ""),
      OrElse(m.spouseName, ""),
      OrElse(m.address, ""),
      OrElse(m.wardNo, ""),
      OrElse(m.profession, ""),
      loan.loanType,
      loan.interestRate,
      loan.loanDuration,
      loan.repaymentDuration,
      loan.loanAmount,
      loan.loanAmountInWords,
      loan.loanCompletionYear,
      loan.loanCompletionMonth,
      loan.loanCompletionDay,
      if approval.Some? then approval.value.approvalDate else "",
      enteredBy,
      enteredPost,
      approvedBy,
      approverPost,
      if approval.Some? then approval.value.approvedLoanAmount else "",
      if approval.Some? then approval.value.approvedLoanAmountWords else "",
      if approval.Some? then approval.value.remarks else "",
      if basic.Some? then basic.value.monthlySaving else "",
      if basic.Some? then basic.value.childSaving else "",
      if basic.Some? then basic.value.totalSaving else "",
      if basic.Some? then basic.value.shareAmount else "",
      MapSeq(PropertiesOf(st, n), PropertyEntryOf),
      MapSeq(FamilyDetailsOf(st, n), FamilyEntryOf),
      MapSeq(Filter(records, IsIncome), AmountEntryOf),
      MapSeq(Filter(records, IsExpense), AmountEntryOf),
      MapSeq(ProjectsOf(st, n), ProjectEntryOf),
      MapSeq(WitnessesOf(st, n), WitnessEntryOf),
      MapSeq(GuarantorsOf(st, n), GuarantorEntryOf))
  }

  function MemberNotFound(n: string): string
  {
    "Member " + n + " not found!"
  }

  function NoLoanFound(n: string): string
  {
    "No loan found for member " + n + "!"
  }

  /** `build_loan_application_context`: the member looked up by number, then that member's
      latest loan, then the dictionary. The two lookups that can fail are the two errors. */
  function BuildLoanApplicationContext(st: Store, n: string, enteredBy: string, enteredPost: string,
                                       approvedBy: string, approverPost: string)
    : Result<LoanApplicationContext>
  {
    if n !in st.members then Err(MemberNotFound(n))
    else if LoansOf(st, n) == [] then Err(NoLoanFound(n))
    else Ok(ContextOf(st, n, st.members[n], Latest(LoansOf(st, n)),
                      enteredBy, enteredPost, approvedBy, approverPost))
  }

  // ---------------------------------------------------------------- properties

  /** The builder fails exactly when the member is unknown or has no loan, with the message of
      the first lookup that fails. */
  lemma BuildFailures(st: Store, n: string, eb: string, ep: string, ab: string, ap: string)
    ensures BuildLoanApplicationContext(st, n, eb, ep, ab, ap).Err?
            <==> n !in st.members || forall l :: l in st.loans ==> l.member != n
    ensures n !in st.members
            ==> BuildLoanApplicationContext(st, n, eb, ep, ab, ap) == Err("Member " + n + " not found!")
    ensures n in st.members && (forall l :: l in st.loans ==> l.member != n)
            ==> BuildLoanApplicationContext(st, n, eb, ep, ab, ap) == Err("No loan found for member " + n + "!")
  {
    if n in st.members && LoansOf(st, n) != [] {
      assert LoansOf(st, n)[0] in LoansOf(st, n);
    }
  }

  /** The loan fields come from one of the member's loans, created no earlier than any other. */
  lemma LatestLoanCopied(st: Store, n: string, eb: string, ep: string, ab: string, ap: string)
    requires BuildLoanApplicationContext(st, n, eb, ep, ab, ap).Ok?
    ensures var c := BuildLoanApplicationContext(st, n, eb, ep, ab, ap).value;
            exists l :: l in st.loans && l.member == n
              && (forall k :: k in st.loans && k.member == n ==> k.createdAt <= l.createdAt)
              && c.loanType == l.loanType && c.interestRate == l.interestRate
              && c.loanDuration == l.loanDuration && c.repaymentDuration == l.repaymentDuration
              && c.loanAmount == l.loanAmount && c.loanAmountInWords == l.loanAmountInWords
              && c.loanCompletionYear == l.loanCompletionYear
              && c.loanCompletionMonth == l.loanCompletionMonth
              && c.loanCompletionDay == l.loanCompletionDay
  {
    var loans := LoansOf(st, n);
    var l := Latest(loans);
    forall k | k in st.loans && k.member == n
      ensures k.createdAt <= l.createdAt
    {
      assert k in loans;
    }
  }

  /** The approval keys of a context, and the approval columns they are read from. */
  function ApprovalView(c: LoanApplicationContext): (string, string, string, string)
  {
    (c.approvalDate, c.approvedLoanAmount, c.approvedLoanAmountWords, c.remarks)
  }

  function ApprovalColumns(a: Approval): (string, string, string, string)
  {
    (a.approvalDate, a.approvedLoanAmount, a.approvedLoanAmountWords, a.remarks)
  }

  /** The savings keys of a context, and the basic collateral columns they are read from. */
  function SavingsView(c: LoanApplicationContext): (string, string, string, string)
  {
    (c.monthlySaving, c.childSaving, c.totalSaving, c.shareAmount)
  }

  function SavingsColumns(b: CollateralBasic): (string, string, string, string)
  {
    (b.monthlySaving, b.childSaving, b.totalSaving, b.shareAmount)
  }

  /** `.filter(…).first()`: nothing when no record matches, and otherwise the earliest match. */
  lemma FirstOfFilter<T>(s: seq<T>, p: T -> bool)
    ensures First(Filter(s, p)).None? <==> forall i :: 0 <= i < |s| ==> !p(s[i])
    ensures First(Filter(s, p)).Some?
            ==> exists i :: 0 <= i < |s| && p(s[i]) && First(Filter(s, p)).value == s[i]
                            && forall j :: 0 <= j < i ==> !p(s[j])
  {
    if Filter(s, p) != [] {
      FilterFirst(s, p);
    }
  }

  /** Without an approval for the member, the approval fields are `''`. */
  lemma NoApprovalFields(st: Store, n: string, eb: string, ep: string, ab: string, ap: string)
    requires BuildLoanApplicationContext(st, n, eb, ep, ab, ap).Ok?
    requires forall i :: 0 <= i < |st.approvals| ==> st.approvals[i].member != n
    ensures ApprovalView(BuildLoanApplicationContext(st, n, eb, ep, ab, ap).value) == ("", "", "", "")
  {
    FirstOfFilter(st.approvals, (a: Approval) => a.member == n);
  }

  /** With an approval for the member, the approval fields come from the member's first approval
      in query order. */
  lemma FirstApprovalFields(st: Store, n: string, eb: string, ep: string, ab: string, ap: string)
    requires BuildLoanApplicationContext(st, n, eb, ep, ab, ap).Ok?
    requires exists i :: 0 <= i < |st.approvals| && st.approvals[i].member == n
    ensures exists i :: 0 <= i < |st.approvals| && st.approvals[i].member == n
              && (forall j :: 0 <= j < i ==> st.approvals[j].member != n)
              && ApprovalView(BuildLoanApplicationContext(st, n, eb, ep, ab, ap).value)
                 == ApprovalColumns(st.approvals[i])
  {
    FirstOfFilter(st.approvals, (a: Approval) => a.member == n);
  }

  /** Without a basic collateral record for the member, the savings fields are `''`. */
  lemma NoCollateralBasicFields(st: Store, n: string, eb: string, ep: string, ab: string, ap: string)
    requires BuildLoanApplicationContext(st, n, eb, ep, ab, ap).Ok?
    requires forall i :: 0 <= i < |st.collateralBasics| ==> st.collateralBasics[i].member != n
    ensures SavingsView(BuildLoanApplicationContext(st, n, eb, ep, ab, ap).value) == ("", "", "", "")
  {
    FirstOfFilter(st.collateralBasics, (b: CollateralBasic) => b.member == n);
  }

  /** With a basic collateral record for the member, the savings fields come from the member's
      first one in query order. */
  lemma FirstCollateralBasicFields(st: Store, n: string, eb: string, ep: string, ab: string, ap: string)
    requires BuildLoanApplicationContext(st, n, eb, ep, ab, ap).Ok?
    requires exists i :: 0 <= i < |st.collateralBasics| && st.collateralBasics[i].member == n
    ensures exists i :: 0 <= i < |st.collateralBasics| && st.collateralBasics[i].member == n
              && (forall j :: 0 <= j < i ==> st.collateralBasics[j].member != n)
              && SavingsView(BuildLoanApplicationContext(st, n, eb, ep, ab, ap).value)
                 == SavingsColumns(st.collateralBasics[i])
  {
    FirstOfFilter(st.collateralBasics, (b: CollateralBasic) => b.member == n);
  }

  /** The organisation fields come from the first organisation profile, or are `''` without one. */
  lemma OrganizationFields(st: Store, n: string, eb: string, ep: string, ab: string, ap: string)
    requires BuildLoanApplicationContext(st, n, eb, ep, ab, ap).Ok?
    ensures var c := BuildLoanApplicationContext(st, n, eb, ep, ab, ap).value;
            if st.organizations == [] then c.companyName == "" && c.companyAddress == ""
            else c.companyName == st.organizations[0].companyName
                 && c.companyAddress == st.organizations[0].address
  {
  }

  /** The four user-facing arguments reach the context unchanged. */
  lemma ArgumentsPassedThrough(st: Store, n: string, eb: string, ep: string, ab: string, ap: string)
    requires BuildLoanApplicationContext(st, n, eb, ep, ab, ap).Ok?
    ensures var c := BuildLoanApplicationContext(st, n, eb, ep, ab, ap).value;
            c.enteredBy == eb && c.enteredPost == ep && c.approvedBy == ab && c.approverPost == ap
  {
  }

  /** An optional member attribute that is missing or empty is rendered as `''`, and a present one
      as itself; the number and name are copied. */
  lemma MemberFields(st: Store, n: string, eb: string, ep: string, ab: string, ap: string)
    requires BuildLoanApplicationContext(st, n, eb, ep, ab, ap).Ok?
    ensures n in st.members
    ensures var c := BuildLoanApplicationContext(st, n, eb, ep, ab, ap).value;
            var m := st.members[n];
            c.memberNumber == n && c.memberName == m.memberName
            && Rendered(m.phone, c.phone) && Rendered(m.email, c.email)
            && Rendered(m.citizenshipNo, c.citizenshipNo) && Rendered(m.fatherName, c.fatherName)
            && Rendered(m.grandfatherName, c.grandfatherName) && Rendered(m.spouseName, c.spouseName)
            && Rendered(m.wardNo, c.wardNo) && Rendered(m.profession, c.profession)
            && Rendered(m.address, c.address)
  {
  }

  lemma RenderedOrElse(o: Option<string>)
    ensures Rendered(o, OrElse(o, ""))
  {
  }

  /** `value or ''` as it shows in the context: `''` for None or empty, the text otherwise. */
  predicate Rendered(o: Option<string>, shown: string)
  {
    (o == None || o == Some("") ==> shown == "") && (o.Some? && o.value != "" ==> shown == o.value)
  }

  /** The income items are, in table order, exactly the member's records of type "income", and
      the expense items those of type "expense"; a record of any other type is in neither list. */
  lemma IncomeExpensePartition(st: Store, n: string, eb: string, ep: string, ab: string, ap: string)
    requires BuildLoanApplicationContext(st, n, eb, ep, ab, ap).Ok?
    ensures var c := BuildLoanApplicationContext(st, n, eb, ep, ab, ap).value;
            c.incomeItems
            == MapSeq(Filter(st.incomeExpenses, (e: CollateralIncomeExpense) => e.member == n && e.kind == "income"), AmountEntryOf)
    ensures var c := BuildLoanApplicationContext(st, n, eb, ep, ab, ap).value;
            c.expenseItems
            == MapSeq(Filter(st.incomeExpenses, (e: CollateralIncomeExpense) => e.member == n && e.kind == "expense"), AmountEntryOf)
    ensures var c := BuildLoanApplicationContext(st, n, eb, ep, ab, ap).value;
            |c.incomeItems| + |c.expenseItems| <= |IncomeExpensesOf(st, n)|
  {
    var mine := (e: CollateralIncomeExpense) => e.member == n;
    FilterFilter(st.incomeExpenses, mine, IsIncome,
                 (e: CollateralIncomeExpense) => e.member == n && e.kind == "income");
    FilterFilter(st.incomeExpenses, mine, IsExpense,
                 (e: CollateralIncomeExpense) => e.member == n && e.kind == "expense");
    FilterDisjointCount(IncomeExpensesOf(st, n), IsIncome, IsExpense);
  }

  /** The `properties` list has one entry per collateral property of the member, in query order,
      each carrying that record's columns. */
  lemma PropertyEntries(st: Store, n: string, eb: string, ep: string, ab: string, ap: string)
    requires BuildLoanApplicationContext(st, n, eb, ep, ab, ap).Ok?
    ensures var c := BuildLoanApplicationContext(st, n, eb, ep, ab, ap).value;
            var records := PropertiesOf(st, n);
            |c.properties| == |records|
            && forall i :: 0 <= i < |records| ==>
                 records[i].member == n
                 && c.properties[i]
                    == PropertyEntry(records[i].ownerName, records[i].district, records[i].municipalityVdc,
                                     records[i].wardNo, records[i].plotNo, records[i].area, records[i].landType)
  {
  }

  /** The `family_members` list has one entry per family record of the member, in query order. */
  lemma FamilyEntries(st: Store, n: string, eb: string, ep: string, ab: string, ap: string)
    requires BuildLoanApplicationContext(st, n, eb, ep, ab, ap).Ok?
    ensures var c := BuildLoanApplicationContext(st, n, eb, ep, ab, ap).value;
            var records := FamilyDetailsOf(st, n);
            |c.familyMembers| == |records|
            && forall i :: 0 <= i < |records| ==>
                 records[i].member == n
                 && (c.familyMembers[i].name, c.familyMembers[i].age, c.familyMembers[i].relation)
                    == (records[i].name, records[i].age, records[i].relation)
                 && (c.familyMembers[i].occupation, c.familyMembers[i].monthlyIncome)
                    == (records[i].occupation, records[i].monthlyIncome)
  {
  }

  /** The `projects` list has one entry per project of the member, in query order, carrying its
      name, self investment, requested amount and total budget; a missing remark is rendered as
      `''`. */
  lemma ProjectEntries(st: Store, n: string, eb: string, ep: string, ab: string, ap: string)
    requires BuildLoanApplicationContext(st, n, eb, ep, ab, ap).Ok?
    ensures var c := BuildLoanApplicationContext(st, n, eb, ep, ab, ap).value;
            var records := ProjectsOf(st, n);
            |c.projects| == |records|
            && forall i :: 0 <= i < |records| ==>
                 records[i].member == n
                 && (c.projects[i].projectName, c.projects[i].selfInvestment,
                     c.projects[i].requestedLoanAmount, c.projects[i].totalCost)
                    == (records[i].projectName, records[i].selfInvestment,
                        records[i].requestLoanAmount, records[i].totalBudgetForProject)
                 && Rendered(records[i].remarks, c.projects[i].remarks)
  {
    var records := ProjectsOf(st, n);
    forall i | 0 <= i < |records|
      ensures Rendered(records[i].remarks, ProjectEntryOf(records[i]).remarks)
    {
      RenderedOrElse(records[i].remarks);
    }
  }

  /** The `witnesses` list has one entry per witness of the member, in query order. */
  lemma WitnessEntries(st: Store, n: string, eb: string, ep: string, ab: string, ap: string)
    requires BuildLoanApplicationContext(st, n, eb, ep, ab, ap).Ok?
    ensures var c := BuildLoanApplicationContext(st, n, eb, ep, ab, ap).value;
            var records := WitnessesOf(st, n);
            |c.witnesses| == |records|
            && forall i :: 0 <= i < |records| ==>
                 records[i].member == n
                 && (c.witnesses[i].witnessName, c.witnesses[i].relation, c.witnesses[i].ward, c.witnesses[i].age)
                    == (records[i].name, records[i].relation, records[i].ward, records[i].age)
  {
  }

  /** The `guarantors` list has one entry per guarantor of the member, in query order, each
      carrying that record's columns. */
  lemma GuarantorEntries(st: Store, n: string, eb: string, ep: string, ab: string, ap: string)
    requires BuildLoanApplicationContext(st, n, eb, ep, ab, ap).Ok?
    ensures var c := BuildLoanApplicationContext(st, n, eb, ep, ab, ap).value;
            var records := GuarantorsOf(st, n);
            |c.guarantors| == |records|
            && forall i :: 0 <= i < |records| ==>
                 records[i].member == n
                 && c.guarantors[i]
                    == GuarantorEntry(records[i].guarantorName, records[i].guarantorAddress,
                                      records[i].guarantorPhone, records[i].guarantorCitizenship,
                                      records[i].guarantorAge)
  {
  }

  // ---------------------------------------------------------------- the builder as written

  /** The text of the `AttributeError` Python raises for a missing attribute. */
  function NoAttribute(model: string, attribute: string): string
  {
    "'" + model + "' object has no attribute '" + attribute + "'"
  }

  /** The builder as written. The address key reads `member.add_to_class`; `add_to_class` is a
      method of Django's model metaclass, which an instance does not see, so once the member and
      a loan are found the dictionary raises `AttributeError` before any list is built. */
  function BuildAsWritten(st: Store, n: string, enteredBy: string, enteredPost: string,
                          approvedBy: string, approverPost: string): Result<LoanApplicationContext>
  {
    var built := BuildLoanApplicationContext(st, n, enteredBy, enteredPost, approvedBy, approverPost);
    if built.Err? then built else Err(NoAttribute("Member", "add_to_class"))
  }

  /** As written, the builder never produces a context: it fails on the two lookups as the
      corrected builder does, and on the address of every member that has a loan. */
  lemma AsWrittenAlwaysFails(st: Store, n: string, eb: string, ep: string, ab: string, ap: string)
    ensures BuildAsWritten(st, n, eb, ep, ab, ap).Err?
    ensures n in st.members && LoansOf(st, n) != []
            ==> BuildAsWritten(st, n, eb, ep, ab, ap) == Err(NoAttribute("Member", "add_to_class"))
    ensures n !in st.members ==> BuildAsWritten(st, n, eb, ep, ab, ap) == Err(MemberNotFound(n))
    ensures n in st.members && LoansOf(st, n) == []
            ==> BuildAsWritten(st, n, eb, ep, ab, ap) == Err(NoLoanFound(n))
  {
  }

  /** The builder with the address read from the `address` column but the property, project and
      guarantor comprehensions as written: they read `municipaliy_vdc`, `requested_loan_amount`
      and `gurantor_age`, which those models do not have, so the first such record raises. The
      dictionary's keys are evaluated in order, so properties fail first. */
  function BuildAddressFixed(st: Store, n: string, enteredBy: string, enteredPost: string,
                             approvedBy: string, approverPost: string): Result<LoanApplicationContext>
  {
    var built := BuildLoanApplicationContext(st, n, enteredBy, enteredPost, approvedBy, approverPost);
    if built.Err? then built
    else if PropertiesOf(st, n) != [] then Err(NoAttribute("CollateralProperty", "municipaliy_vdc"))
    else if ProjectsOf(st, n) != [] then Err(NoAttribute("ProjectDetail", "requested_loan_amount"))
    else if GuarantorsOf(st, n) != [] then Err(NoAttribute("GuarantorDetails", "gurantor_age"))
    else built
  }

  /** Behind the address defect, a member with any collateral property, project or guarantor
      record still gets no context, whereas the corrected builder lists those records. */
  lemma MisspelledColumnsRaise(st: Store, n: string, eb: string, ep: string, ab: string, ap: string)
    requires BuildLoanApplicationContext(st, n, eb, ep, ab, ap).Ok?
    ensures BuildAddressFixed(st, n, eb, ep, ab, ap).Ok?
            <==> PropertiesOf(st, n) == [] && ProjectsOf(st, n) == [] && GuarantorsOf(st, n) == []
    ensures PropertiesOf(st, n) != []
            ==> BuildAddressFixed(st, n, eb, ep, ab, ap)
                == Err(NoAttribute("CollateralProperty", "municipaliy_vdc"))
    ensures PropertiesOf(st, n) == [] && ProjectsOf(st, n) != []
            ==> BuildAddressFixed(st, n, eb, ep, ab, ap)
                == Err(NoAttribute("ProjectDetail", "requested_loan_amount"))
    ensures PropertiesOf(st, n) == [] && ProjectsOf(st, n) == [] && GuarantorsOf(st, n) != []
            ==> BuildAddressFixed(st, n, eb, ep, ab, ap)
                == Err(NoAttribute("GuarantorDetails", "gurantor_age"))
    ensures BuildAddressFixed(st, n, eb, ep, ab, ap).Ok?
            ==> BuildAddressFixed(st, n, eb, ep, ab, ap) == BuildLoanApplicationContext(st, n, eb, ep, ab, ap)
  {
  }
}
