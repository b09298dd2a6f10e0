/** The stored records the core reads and writes, one datatype per Django model it touches
    (members, loans, collateral, projects, dashboard and accounts `models.py`). A foreign key
    to a member is the member number it points at; a nullable column is an `Option`. */
module Records {
  import opened Wrappers
  import opened Dates

  /** A member; the member number is the key it is stored under. */
  datatype Member = Member(
    date: CalendarDate,
    memberName: string,
    memberNameNepali: Option<string>,
    phone: Option<string>,
    dobBs: Option<string>,
    citizenshipNo: Option<string>,
    nationalIdNo: Option<string>,
    email: Option<string>,
    profession: Option<string>,
    facebookDetail: Option<string>,
    whatsappDetail: Option<string>,
    grandfatherName: Option<string>,
    fatherName: Option<string>,
    spouseName: Option<string>,
    spousePhone: Option<string>,
    address: Option<string>,
    wardNo: Option<string>,
    businessName: Option<string>,
    businessAddress: Option<string>,
    job: Option<string>,
    jobAddress: Option<string>)

  datatype LoanStatus = Pending | Approved | Rejected | Disbursed | Completed

  /** A loan application. `createdAt` is the creation timestamp Django fills in. */
  datatype Loan = Loan(
    member: string,
    loanType: string,
    interestRate: real,
    loanDuration: string,
    repaymentDuration: string,
    loanAmount: string,
    loanAmountInWords: string,
    loanCompletionYear: string,
    loanCompletionMonth: string,
    loanCompletionDay: string,
    status: LoanStatus,
    createdAt: int)

  datatype Approval = Approval(
    member: string,
    approvalDate: string,
    enteredBy: string,
    enteredPost: string,
    approvedBy: string,
    approverPost: string,
    remarks: string,
    approvedLoanAmount: string,
    approvedLoanAmountWords: string)

  datatype Witness = Witness(
    member: string,
    name: string,
    relation: string,
    address: string,
    tole: Option<string>,
    ward: string,
    age: string)

  datatype Guarantor = Guarantor(
    member: string,
    guarantorMemberNumber: Option<string>,
    guarantorName: string,
    guarantorAddress: string,
    guarantorWard: string,
    guarantorPhone: string,
    guarantorCitizenship: string,
    guarantorGrandfather: string,
    guarantorFather: string,
    guarantorCitizenshipIssueDistrict: string,
    guarantorAge: string)

  datatype CollateralBasic = CollateralBasic(
    member: string,
    monthlySaving: string,
    childSaving: string,
    totalSaving: string,
    shareAmount: string)

  datatype CollateralProperty = CollateralProperty(
    member: string,
    ownerName: string,
    fatherOrSpouseName: string,
    grandfatherOrFatherInlawName: string,
    district: string,
    municipalityVdc: string,
    sheetNo: string,
    wardNo: string,
    plotNo: string,
    area: string,
    landType: string)

  datatype CollateralFamilyDetail = CollateralFamilyDetail(
    member: string,
    name: string,
    age: string,
    relation: string,
    memberOfOtherCoop: string,
    occupation: string,
    monthlyIncome: string)

  /** One income or expense line; `kind` is the `type` column, meant to be "income" or "expense". */
  datatype CollateralIncomeExpense = CollateralIncomeExpense(
    member: string,
    field: string,
    amount: string,
    kind: string)

  datatype ProjectDetail = ProjectDetail(
    member: string,
    projectName: string,
    selfInvestment: string,
    requestLoanAmount: string,
    totalBudgetForProject: string,
    remarks: Option<string>)

  datatype OrganizationProfile = OrganizationProfile(companyName: string, address: string)

  /** The logged-in user, as far as the views read it. */
  datatype User = User(username: string, fullNameNepali: Option<string>, post: Option<string>)

  /** Python's `a or b` on a nullable text column: the value when it is neither None nor empty. */
  function OrElse(o: Option<string>, fallback: string): string
  {
    if o.Some? && o.value != "" then o.value else fallback
  }

  /** `user.full_name_nepali or user.username`. */
  function EnteredBy(u: User): string
  {
    OrElse(u.fullNameNepali, u.username)
  }

  /** `user.post or 'Officer'`. */
  function EnteredPost(u: User): string
  {
    OrElse(u.post, "Officer")
  }
}
