/** The API server's document store and its route handlers: accounts with
    one-time codes, and per-user transactions and budgets whose `spent` the
    transaction routes keep up to date by deltas. */
module Server {
  import opened Ledger

  // ---------------------------------------------------------------------
  // Documents
  // ---------------------------------------------------------------------

  /** A stored transaction; `owner` is the id of the user it belongs to. */
  datatype TxDoc = TxDoc(id: nat, owner: nat, kind: Kind, category: string, amount: int, date: Date, description: string)

  /** A stored budget. */
  datatype BudgetDoc = BudgetDoc(id: nat, owner: nat, category: string, limit: int, spent: int, color: string)

  /** A stored account; `password` is the bcrypt hash, `otpExpiry` a time in
      milliseconds.  An absent field is None. */
  datatype User = User(
    id: nat, name: string, email: Option<string>, phone: Option<string>, password: string,
    isPro: bool, otpCode: Option<string>, otpExpiry: Option<int>, isVerified: bool)

  /** A route's reply: success with the id of the document concerned, or an
      HTTP error status. */
  datatype Reply = Success(id: nat) | Failure(status: int)

  /** How long a one-time code stays valid: ten minutes, in milliseconds. */
  const OtpLifetime: int := 10 * 60 * 1000

  /** The colour a budget gets when the request names none. */
  const DefaultBudgetColor: string := "#3b82f6"

  /** The schema's `enum: ['income', 'expense']`. */
  function ParseKind(s: string): (r: Option<Kind>)
    ensures r == Some(Income) <==> s == "income"
    ensures r == Some(Expense) <==> s == "expense"
  {
    if s == "income" then Some(Income) else if s == "expense" then Some(Expense) else None
  }

  /** The string the schema stores for a kind. */
  function KindName(k: Kind): string
  {
    match k
    case Income => "income"
    case Expense => "expense"
  }

  /** The enumeration accepts exactly the stored names: every kind's name
      parses back to it, and whatever parses is the name of what it parsed to. */
  lemma KindNameRoundTrip(k: Kind, s: string)
    ensures ParseKind(KindName(k)) == Some(k)
    ensures ParseKind(s).Some? ==> KindName(ParseKind(s).value) == s
    ensures ParseKind(s).None? <==> forall k' :: KindName(k') != s
  {
    if ParseKind(s).None? {
      forall k' ensures KindName(k') != s {
        assert KindName(k') == "income" || KindName(k') == "expense";
      }
    }
  }

  // ---------------------------------------------------------------------
  // What `spent` should be
  // ---------------------------------------------------------------------

  /** What one transaction adds to the budget of (`owner`, `category`). */
  function Contribution(d: TxDoc, owner: nat, category: string): int
  {
    if d.owner == owner && d.kind == Expense && d.category == category then d.amount else 0
  }

  /** Sum of the owner's expense amounts in the category. */
  function Spent(docs: seq<TxDoc>, owner: nat, category: string): int
  {
    if docs == [] then 0 else Contribution(docs[0], owner, category) + Spent(docs[1..], owner, category)
  }

  lemma {:induction false} SpentAppend(a: seq<TxDoc>, b: seq<TxDoc>, owner: nat, category: string)
    ensures Spent(a + b, owner, category) == Spent(a, owner, category) + Spent(b, owner, category)
  {
    if a == [] {
      assert a + b == b;
    } else {
      assert (a + b)[1..] == a[1..] + b;
      SpentAppend(a[1..], b, owner, category);
    }
  }

  /** The sum splits around any position. */
  lemma SpentSplit(docs: seq<TxDoc>, k: nat, owner: nat, category: string)
    requires k < |docs|
    ensures Spent(docs, owner, category) ==
      Spent(docs[..k], owner, category) + Contribution(docs[k], owner, category) + Spent(docs[k + 1..], owner, category)
  {
    assert docs == docs[..k] + [docs[k]] + docs[k + 1..];
    SpentAppend(docs[..k] + [docs[k]], docs[k + 1..], owner, category);
    SpentAppend(docs[..k], [docs[k]], owner, category);
  }

  /** Removing a document removes exactly its contribution. */
  lemma SpentRemove(docs: seq<TxDoc>, k: nat, owner: nat, category: string)
    requires k < |docs|
    ensures Spent(docs[..k] + docs[k + 1..], owner, category) ==
      Spent(docs, owner, category) - Contribution(docs[k], owner, category)
  {
    SpentSplit(docs, k, owner, category);
    SpentAppend(docs[..k], docs[k + 1..], owner, category);
  }

  /** Replacing a document swaps its contribution for the new one's. */
  lemma SpentReplace(docs: seq<TxDoc>, k: nat, d: TxDoc, owner: nat, category: string)
    requires k < |docs|
    ensures Spent(docs[k := d], owner, category) ==
      Spent(docs, owner, category) - Contribution(docs[k], owner, category) + Contribution(d, owner, category)
  {
    SpentSplit(docs, k, owner, category);
    SpentSplit(docs[k := d], k, owner, category);
    assert docs[k := d][..k] == docs[..k];
    assert docs[k := d][k + 1..] == docs[k + 1..];
  }

  /** Every budget's `spent` is its owner's expense sum in its category. */
  ghost predicate Tracks(bs: seq<BudgetDoc>, txs: seq<TxDoc>)
  {
    forall i :: 0 <= i < |bs| ==> bs[i].spent == Spent(txs, bs[i].owner, bs[i].category)
  }

  /** At most one budget per (user, category). */
  predicate Unique(bs: seq<BudgetDoc>)
  {
    forall i, j :: 0 <= i < j < |bs| ==> bs[i].owner != bs[j].owner || bs[i].category != bs[j].category
  }

  // ---------------------------------------------------------------------
  // Queries (`findOne`: the first match in insertion order)
  // ---------------------------------------------------------------------

  predicate Matches(b: BudgetDoc, owner: nat, category: string)
  {
    b.owner == owner && b.category == category
  }

  /** `Budget.findOne({ userId, category })` */
  function FirstBudget(bs: seq<BudgetDoc>, owner: nat, category: string): (r: Option<nat>)
    ensures r.Some? ==> r.value < |bs| && Matches(bs[r.value], owner, category)
    ensures r.Some? ==> forall j :: 0 <= j < r.value ==> !Matches(bs[j], owner, category)
    ensures r.None? <==> forall j :: 0 <= j < |bs| ==> !Matches(bs[j], owner, category)
  {
    if bs == [] then None
    else if Matches(bs[0], owner, category) then Some(0)
    else match FirstBudget(bs[1..], owner, category)
      case None => None
      case Some(k) => Some(k + 1)
  }

  /** `Budget.findOne({ _id, userId })` */
  function BudgetById(bs: seq<BudgetDoc>, id: nat, owner: nat): (r: Option<nat>)
    ensures r.Some? ==> r.value < |bs| && bs[r.value].id == id && bs[r.value].owner == owner
    ensures r.None? <==> forall j :: 0 <= j < |bs| ==> bs[j].id != id || bs[j].owner != owner
  {
    if bs == [] then None
    else if bs[0].id == id && bs[0].owner == owner then Some(0)
    else match BudgetById(bs[1..], id, owner)
      case None => None
      case Some(k) => Some(k + 1)
  }

  /** `Transaction.findOne({ _id, userId })` */
  function TxById(txs: seq<TxDoc>, id: nat, owner: nat): (r: Option<nat>)
    ensures r.Some? ==> r.value < |txs| && txs[r.value].id == id && txs[r.value].owner == owner
    ensures r.None? <==> forall j :: 0 <= j < |txs| ==> txs[j].id != id || txs[j].owner != owner
  {
    if txs == [] then None
    else if txs[0].id == id && txs[0].owner == owner then Some(0)
    else match TxById(txs[1..], id, owner)
      case None => None
      case Some(k) => Some(k + 1)
  }

  /** `budget.spent += delta` on the first budget of (`owner`, `category`), if any. */
  function Adjust(bs: seq<BudgetDoc>, owner: nat, category: string, delta: int): (r: seq<BudgetDoc>)
    ensures |r| == |bs|
  {
    match FirstBudget(bs, owner, category)
    case None => bs
    case Some(k) => bs[k := bs[k].(spent := bs[k].spent + delta)]
  }

  /** With unique budgets, the adjustment reaches exactly the budget of
      (`owner`, `category`) and changes nothing but its `spent`. */
  lemma AdjustAt(bs: seq<BudgetDoc>, owner: nat, category: string, delta: int, i: nat)
    requires Unique(bs) && i < |bs|
    ensures Adjust(bs, owner, category, delta)[i] ==
      if Matches(bs[i], owner, category) then bs[i].(spent := bs[i].spent + delta) else bs[i]
  {
  }

  /** The adjustment keeps budgets unique. */
  lemma AdjustUnique(bs: seq<BudgetDoc>, owner: nat, category: string, delta: int)
    requires Unique(bs)
    ensures Unique(Adjust(bs, owner, category, delta))
  {
    var r := Adjust(bs, owner, category, delta);
    forall i | 0 <= i < |r| ensures r[i].owner == bs[i].owner && r[i].category == bs[i].category {
      AdjustAt(bs, owner, category, delta, i);
    }
  }

  // ---------------------------------------------------------------------
  // Transaction routes: the bookkeeping and what it preserves
  // ---------------------------------------------------------------------

  /** The body of a transaction request.  An absent or empty text field is "",
      an absent amount is 0 and an absent date is None. */
  datatype TxRequest = TxRequest(kind: string, category: string, amount: int, date: Option<Date>, description: string)

  /** `!type || !category || !amount || !date` */
  predicate MissingField(req: TxRequest)
  {
    req.kind == "" || req.category == "" || req.amount == 0 || req.date.None?
  }

  /** Budgets after creating `d`: an expense credits its category's budget. */
  function CreatedBudgets(bs: seq<BudgetDoc>, d: TxDoc): seq<BudgetDoc>
  {
    if d.kind == Expense then Adjust(bs, d.owner, d.category, d.amount) else bs
  }

  /** Creating a transaction keeps every budget's `spent` equal to its sum. */
  lemma CreateKeepsTracking(bs: seq<BudgetDoc>, txs: seq<TxDoc>, d: TxDoc)
    requires Tracks(bs, txs) && Unique(bs)
    ensures Tracks(CreatedBudgets(bs, d), txs + [d]) && Unique(CreatedBudgets(bs, d))
  {
    var r := CreatedBudgets(bs, d);
    AdjustUnique(bs, d.owner, d.category, d.amount);
    forall i | 0 <= i < |r| ensures r[i].spent == Spent(txs + [d], r[i].owner, r[i].category) {
      AdjustAt(bs, d.owner, d.category, d.amount, i);
      SpentAppend(txs, [d], bs[i].owner, bs[i].category);
    }
  }

  /** Budgets after deleting `d`: an expense debits its category's budget. */
  function DeletedBudgets(bs: seq<BudgetDoc>, d: TxDoc): seq<BudgetDoc>
  {
    if d.kind == Expense then Adjust(bs, d.owner, d.category, -d.amount) else bs
  }

  /** One budget after crediting `d`: its `spent` gains `d`'s contribution. */
  lemma CreatedAt(bs: seq<BudgetDoc>, d: TxDoc, i: nat)
    requires Unique(bs) && i < |bs|
    ensures |CreatedBudgets(bs, d)| == |bs| && Unique(CreatedBudgets(bs, d))
    ensures CreatedBudgets(bs, d)[i] == bs[i].(spent := bs[i].spent + Contribution(d, bs[i].owner, bs[i].category))
  {
    AdjustAt(bs, d.owner, d.category, d.amount, i);
    AdjustUnique(bs, d.owner, d.category, d.amount);
  }

  /** One budget after debiting `d`: its `spent` loses `d`'s contribution. */
  lemma DeletedAt(bs: seq<BudgetDoc>, d: TxDoc, i: nat)
    requires Unique(bs) && i < |bs|
    ensures |DeletedBudgets(bs, d)| == |bs| && Unique(DeletedBudgets(bs, d))
    ensures DeletedBudgets(bs, d)[i] == bs[i].(spent := bs[i].spent - Contribution(d, bs[i].owner, bs[i].category))
  {
    AdjustAt(bs, d.owner, d.category, -d.amount, i);
    AdjustUnique(bs, d.owner, d.category, -d.amount);
  }

  /** Deleting a transaction keeps every budget's `spent` equal to its sum. */
  lemma DeleteKeepsTracking(bs: seq<BudgetDoc>, txs: seq<TxDoc>, k: nat)
    requires Tracks(bs, txs) && Unique(bs) && k < |txs|
    ensures Tracks(DeletedBudgets(bs, txs[k]), txs[..k] + txs[k + 1..]) && Unique(DeletedBudgets(bs, txs[k]))
  {
    var r := DeletedBudgets(bs, txs[k]);
    AdjustUnique(bs, txs[k].owner, txs[k].category, -txs[k].amount);
    forall i | 0 <= i < |r| ensures r[i].spent == Spent(txs[..k] + txs[k + 1..], r[i].owner, r[i].category) {
      AdjustAt(bs, txs[k].owner, txs[k].category, -txs[k].amount, i);
      SpentRemove(txs, k, bs[i].owner, bs[i].category);
    }
  }

  /** The checks Mongoose applies when the updated document is saved: the
      type in the enum, a non-empty category and a date. */
  predicate SavesCleanly(req: TxRequest)
  {
    ParseKind(req.kind).Some? && req.category != "" && req.date.Some?
  }

  /** The document an update produces: the five fields replaced. */
  function Replaced(stored: TxDoc, req: TxRequest): TxDoc
    requires SavesCleanly(req)
  {
    stored.(kind := ParseKind(req.kind).value, category := req.category, amount := req.amount,
            date := req.date.value, description := req.description)
  }

  /** Budgets after an update, as written: both adjustments sit inside the
      test on the stored type, so an income → expense edit credits nothing. */
  function UpdatedBudgetsAsWritten(bs: seq<BudgetDoc>, stored: TxDoc, req: TxRequest): seq<BudgetDoc>
  {
    if stored.kind == Expense then
      var debited := Adjust(bs, stored.owner, stored.category, -stored.amount);
      if req.kind == "expense" then Adjust(debited, stored.owner, req.category, req.amount) else debited
    else bs
  }

  /** The update route as written, on the store's two collections: the budget
      writes happen first, then the save, which may fail (status 500) and
      leave the transaction as it was. */
  function UpdateAsWritten(txs: seq<TxDoc>, bs: seq<BudgetDoc>, k: nat, req: TxRequest): (seq<TxDoc>, seq<BudgetDoc>)
    requires k < |txs|
  {
    var budgets := UpdatedBudgetsAsWritten(bs, txs[k], req);
    if SavesCleanly(req) then (txs[k := Replaced(txs[k], req)], budgets) else (txs, budgets)
  }

  /** An income → expense edit leaves the new category's budget short. */
  lemma UpdateIncomeToExpenseLosesTracking()
    ensures
      var txs := [TxDoc(1, 0, Income, "Food", 5, Date(2026, 1, 1), "")];
      var bs := [BudgetDoc(2, 0, "Food", 100, 0, DefaultBudgetColor)];
      var req := TxRequest("expense", "Food", 5, Some(Date(2026, 1, 1)), "");
      && Tracks(bs, txs) && Unique(bs)
      && !Tracks(UpdateAsWritten(txs, bs, 0, req).1, UpdateAsWritten(txs, bs, 0, req).0)
  {
    var txs := [TxDoc(1, 0, Income, "Food", 5, Date(2026, 1, 1), "")];
    var bs := [BudgetDoc(2, 0, "Food", 100, 0, DefaultBudgetColor)];
    var req := TxRequest("expense", "Food", 5, Some(Date(2026, 1, 1)), "");
    assert Spent(txs, 0, "Food") == 0 by {
      assert txs[1..] == [];
    }
    var txs' := [TxDoc(1, 0, Expense, "Food", 5, Date(2026, 1, 1), "")];
    assert ParseKind(req.kind) == Some(Expense);
    assert SavesCleanly(req);
    assert Replaced(txs[0], req) == txs'[0];
    assert UpdatedBudgetsAsWritten(bs, txs[0], req) == bs;
    assert txs[0 := Replaced(txs[0], req)] == txs';
    assert UpdateAsWritten(txs, bs, 0, req) == (txs', bs);
    assert Spent(txs', 0, "Food") == 5 by {
      assert txs'[1..] == [];
    }
    assert bs[0].spent != Spent(txs', bs[0].owner, bs[0].category);
  }

  /** A body that fails the save still moves the budgets. */
  lemma UpdateFailedSaveLosesTracking()
    ensures
      var txs := [TxDoc(1, 0, Expense, "Food", 5, Date(2026, 1, 1), "")];
      var bs := [BudgetDoc(2, 0, "Food", 100, 5, DefaultBudgetColor)];
      var req := TxRequest("income", "Food", 5, None, "");
      && Tracks(bs, txs) && Unique(bs)
      && !Tracks(UpdateAsWritten(txs, bs, 0, req).1, UpdateAsWritten(txs, bs, 0, req).0)
  {
    var txs := [TxDoc(1, 0, Expense, "Food", 5, Date(2026, 1, 1), "")];
    var bs := [BudgetDoc(2, 0, "Food", 100, 5, DefaultBudgetColor)];
    var req := TxRequest("income", "Food", 5, None, "");
    assert Spent(txs, 0, "Food") == 5 by {
      assert txs[1..] == [];
    }
    assert FirstBudget(bs, 0, "Food") == Some(0);
    assert !SavesCleanly(req);
    var bs' := [BudgetDoc(2, 0, "Food", 100, 0, DefaultBudgetColor)];
    assert UpdatedBudgetsAsWritten(bs, txs[0], req) == bs';
    assert UpdateAsWritten(txs, bs, 0, req) == (txs, bs');
    assert bs'[0].spent != Spent(txs, bs'[0].owner, bs'[0].category);
  }

  /** Budgets after an update, corrected: the stored expense is debited, and
      the new document is credited whenever it is an expense. */
  function UpdatedBudgets(bs: seq<BudgetDoc>, stored: TxDoc, replacement: TxDoc): seq<BudgetDoc>
  {
    CreatedBudgets(DeletedBudgets(bs, stored), replacement)
  }

  /** The corrected update keeps every budget's `spent` equal to its sum. */
  lemma UpdateKeepsTracking(bs: seq<BudgetDoc>, txs: seq<TxDoc>, k: nat, d: TxDoc)
    requires Tracks(bs, txs) && Unique(bs) && k < |txs|
    ensures Tracks(UpdatedBudgets(bs, txs[k], d), txs[k := d]) && Unique(UpdatedBudgets(bs, txs[k], d))
  {
    var r := UpdatedBudgets(bs, txs[k], d);
    if bs != [] {
      UpdatedBudgetAt(bs, txs, k, d, 0);
    }
    forall i | 0 <= i < |r| ensures r[i].spent == Spent(txs[k := d], r[i].owner, r[i].category) {
      UpdatedBudgetAt(bs, txs, k, d, i);
      SpentReplace(txs, k, d, bs[i].owner, bs[i].category);
    }
  }

  /** One budget after the corrected update: its `spent` loses the stored
      document's contribution and gains the new one's. */
  lemma UpdatedBudgetAt(bs: seq<BudgetDoc>, txs: seq<TxDoc>, k: nat, d: TxDoc, i: nat)
    requires Unique(bs) && k < |txs| && i < |bs|
    ensures |UpdatedBudgets(bs, txs[k], d)| == |bs| && Unique(UpdatedBudgets(bs, txs[k], d))
    ensures UpdatedBudgets(bs, txs[k], d)[i] ==
      bs[i].(spent := bs[i].spent - Contribution(txs[k], bs[i].owner, bs[i].category) + Contribution(d, bs[i].owner, bs[i].category))
  {
    DeletedAt(bs, txs[k], i);
    CreatedAt(DeletedBudgets(bs, txs[k]), d, i);
  }

  /** The two versions differ only on an edit from income to expense. */
  lemma UpdateAsWrittenAgreesOtherwise(bs: seq<BudgetDoc>, stored: TxDoc, req: TxRequest)
    requires SavesCleanly(req)
    requires !(stored.kind == Income && req.kind == "expense")
    ensures UpdatedBudgetsAsWritten(bs, stored, req) == UpdatedBudgets(bs, stored, Replaced(stored, req))
  {
  }

  // ---------------------------------------------------------------------
  // Budget routes
  // ---------------------------------------------------------------------

  /** A budget seeded with the existing sum, added where none exists for
      its (user, category), keeps the store tracking. */
  lemma CreateBudgetKeepsTracking(bs: seq<BudgetDoc>, txs: seq<TxDoc>, b: BudgetDoc)
    requires Tracks(bs, txs) && Unique(bs)
    requires FirstBudget(bs, b.owner, b.category).None?
    requires b.spent == Spent(txs, b.owner, b.category)
    ensures Tracks(bs + [b], txs) && Unique(bs + [b])
  {
  }

  /** Changing a budget's limit and colour keeps the store tracking. */
  lemma UpdateBudgetKeepsTracking(bs: seq<BudgetDoc>, txs: seq<TxDoc>, k: nat, limit: int, color: string)
    requires Tracks(bs, txs) && Unique(bs) && k < |bs|
    ensures Tracks(bs[k := bs[k].(limit := limit, color := color)], txs)
    ensures Unique(bs[k := bs[k].(limit := limit, color := color)])
  {
  }

  /** Removing a budget keeps the store tracking. */
  lemma DeleteBudgetKeepsTracking(bs: seq<BudgetDoc>, txs: seq<TxDoc>, k: nat)
    requires Tracks(bs, txs) && Unique(bs) && k < |bs|
    ensures Tracks(bs[..k] + bs[k + 1..], txs) && Unique(bs[..k] + bs[k + 1..])
  {
    var r := bs[..k] + bs[k + 1..];
    forall i | 0 <= i < |r| ensures r[i] == bs[if i < k then i else i + 1] {
    }
  }

  // ---------------------------------------------------------------------
  // Accounts and one-time codes
  // ---------------------------------------------------------------------

  /** `User.findOne({ email })`; an absent address matches nobody. */
  function UserByEmail(users: seq<User>, email: string): (r: Option<nat>)
    ensures r.Some? ==> r.value < |users| && email != "" && users[r.value].email == Some(email)
    ensures r.None? <==> email == "" || forall j :: 0 <= j < |users| ==> users[j].email != Some(email)
  {
    if email == "" || users == [] then None
    else if users[0].email == Some(email) then Some(0)
    else match UserByEmail(users[1..], email)
      case None => None
      case Some(k) => Some(k + 1)
  }

  /** `User.findOne({ phone })`; an absent number matches nobody. */
  function UserByPhone(users: seq<User>, phone: string): (r: Option<nat>)
    ensures r.Some? ==> r.value < |users| && phone != "" && users[r.value].phone == Some(phone)
    ensures r.None? <==> phone == "" || forall j :: 0 <= j < |users| ==> users[j].phone != Some(phone)
  {
    if phone == "" || users == [] then None
    else if users[0].phone == Some(phone) then Some(0)
    else match UserByPhone(users[1..], phone)
      case None => None
      case Some(k) => Some(k + 1)
  }

  /** `method === 'email' ? findOne({ email }) : findOne({ phone })` */
  function UserByMethod(users: seq<User>, channel: string, email: string, phone: string): Option<nat>
  {
    if channel == "email" then UserByEmail(users, email) else UserByPhone(users, phone)
  }

  /** The body of a sign-up request; an absent field is "". */
  datatype SignupRequest = SignupRequest(name: string, email: string, phone: string, password: string, channel: string)

  /** The validation and duplicate check of the sign-up route: the error
      status, or None when the account may be created. */
  function SignupRefusal(users: seq<User>, req: SignupRequest): (r: Option<int>)
    ensures r.None? <==>
      && req.name != "" && req.password != "" && req.channel != ""
      && (req.channel == "email" ==> req.email != "")
      && (req.channel == "phone" ==> req.phone != "")
      && UserByMethod(users, req.channel, req.email, req.phone).None?
    ensures r.Some? ==> r.value == 400
  {
    if req.name == "" || req.password == "" || req.channel == "" then Some(400)
    else if req.channel == "email" && req.email == "" then Some(400)
    else if req.channel == "phone" && req.phone == "" then Some(400)
    else if UserByMethod(users, req.channel, req.email, req.phone).Some? then Some(400)
    else None
  }

  function Present(s: string): Option<string>
  {
    if s == "" then None else Some(s)
  }

  /** Outcome of checking a submitted code against an account. */
  datatype OtpVerdict = InvalidOtp | OtpExpired | OtpAccepted

  /** The code check of `verify-otp` and `verify-signin-otp` as written:
      `user.otpCode !== otp`, then `new Date() > user.otpExpiry`.  With the
      code and expiry cleared, an absent code equals the cleared one and the
      comparison with the cleared expiry is false, so the check passes. */
  function OtpCheckAsWritten(u: User, otp: Option<string>, now: int): OtpVerdict
  {
    if u.otpCode != otp then InvalidOtp
    else if u.otpExpiry.Some? && now > u.otpExpiry.value then OtpExpired
    else OtpAccepted
  }

  /** An account whose code was already used accepts a request without one. */
  lemma ClearedCodeAcceptedAsWritten(u: User, now: int)
    requires u.otpCode.None? && u.otpExpiry.None?
    ensures OtpCheckAsWritten(u, None, now) == OtpAccepted
    ensures OtpCheck(u, None, now) == InvalidOtp
  {
  }

  /** The code check, corrected: an account without an outstanding code
      accepts nothing. */
  function OtpCheck(u: User, otp: Option<string>, now: int): (r: OtpVerdict)
    ensures r == OtpAccepted <==>
      u.otpCode.Some? && otp == u.otpCode && u.otpExpiry.Some? && now <= u.otpExpiry.value
    ensures r == InvalidOtp <==> u.otpCode.None? || otp != u.otpCode
  {
    if u.otpCode.None? || u.otpCode != otp then InvalidOtp
    else if u.otpExpiry.None? || now > u.otpExpiry.value then OtpExpired
    else OtpAccepted
  }

  /** A freshly issued code is accepted for ten minutes and refused after;
      once used and cleared, no request is accepted. */
  lemma OtpLifecycle(u: User, code: string, issued: int, now: int, otp: Option<string>)
    ensures issued <= now <= issued + OtpLifetime ==>
      OtpCheck(u.(otpCode := Some(code), otpExpiry := Some(issued + OtpLifetime)), Some(code), now) == OtpAccepted
    ensures now > issued + OtpLifetime ==>
      OtpCheck(u.(otpCode := Some(code), otpExpiry := Some(issued + OtpLifetime)), otp, now) != OtpAccepted
    ensures OtpCheck(u.(otpCode := None, otpExpiry := None), otp, now) != OtpAccepted
  {
  }

  // ---------------------------------------------------------------------
  // The store
  // ---------------------------------------------------------------------

  /** The database: three collections in insertion order and an id source. */
  class Store {
    var users: seq<User>
    var transactions: seq<TxDoc>
    var budgets: seq<BudgetDoc>
    var nextId: nat

    /** The store's invariant: budgets are unique per (user, category) and
        each one's `spent` is its owner's expense sum in its category. */
    ghost predicate Valid()
      reads this
    {
      Tracks(budgets, transactions) && Unique(budgets)
    }

    constructor Empty()
      ensures users == [] && transactions == [] && budgets == [] && nextId == 0
      ensures Valid()
    {
      users, transactions, budgets, nextId := [], [], [], 0;
    }

    method FreshId() returns (id: nat)
      modifies this
      ensures id == old(nextId) && nextId == old(nextId) + 1
      ensures users == old(users) && transactions == old(transactions) && budgets == old(budgets)
    {
      id := nextId;
      nextId := nextId + 1;
    }

    /** `Budget.findOne({ userId, category })`, then `spent += delta` and save. */
    method AdjustBudget(owner: nat, category: string, delta: int)
      modifies this
      ensures budgets == Adjust(old(budgets), owner, category, delta)
      ensures users == old(users) && transactions == old(transactions) && nextId == old(nextId)
    {
      var found := FirstBudget(budgets, owner, category);
      if found.Some? {
        var k := found.value;
        budgets := budgets[k := budgets[k].(spent := budgets[k].spent + delta)];
      }
    }

    /** POST /api/auth/signup: `hash` is the bcrypt hash of the password and
        `otp` the generated code. */
    method SignUp(req: SignupRequest, hash: string, otp: string, now: int) returns (r: Reply)
      modifies this
      ensures transactions == old(transactions) && budgets == old(budgets)
      ensures SignupRefusal(old(users), req).Some? ==>
        r == Failure(SignupRefusal(old(users), req).value) && users == old(users)
      ensures SignupRefusal(old(users), req).None? ==>
        && r == Success(old(nextId))
        && users == old(users) + [User(old(nextId), req.name,
             if req.channel == "email" then Some(req.email) else None,
             if req.channel == "email" then None else Present(req.phone),
             hash, false, Some(otp), Some(now + OtpLifetime), false)]
    {
      if req.name == "" || req.password == "" || req.channel == "" {
        return Failure(400);
      }
      if req.channel == "email" && req.email == "" {
        return Failure(400);
      }
      if req.channel == "phone" && req.phone == "" {
        return Failure(400);
      }
      var existing := UserByMethod(users, req.channel, req.email, req.phone);
      if existing.Some? {
        return Failure(400);
      }
      var id := FreshId();
      var user := User(id, req.name, None, None, hash, false, Some(otp), Some(now + OtpLifetime), false);
      if req.channel == "email" {
        user := user.(email := Some(req.email));
      } else {
        user := user.(phone := Present(req.phone));
      }
      users := users + [user];
      r := Success(id);
    }

    /** POST /api/auth/verify-otp (with the corrected code check): mark the
        account verified and clear its code. */
    method VerifyOtp(channel: string, email: string, phone: string, otp: Option<string>, now: int) returns (r: Reply)
      modifies this
      ensures transactions == old(transactions) && budgets == old(budgets) && nextId == old(nextId)
      ensures UserByMethod(old(users), channel, email, phone).None? ==> r == Failure(404) && users == old(users)
      ensures UserByMethod(old(users), channel, email, phone).Some? ==>
        var k := UserByMethod(old(users), channel, email, phone).value;
        match OtpCheck(old(users)[k], otp, now)
        case OtpAccepted =>
          r == Success(old(users)[k].id) &&
          users == old(users)[k := old(users)[k].(isVerified := true, otpCode := None, otpExpiry := None)]
        case _ => r == Failure(400) && users == old(users)
    {
      var found := UserByMethod(users, channel, email, phone);
      if found.None? {
        return Failure(404);
      }
      var k := found.value;
      var user := users[k];
      var verdict := OtpCheck(user, otp, now);
      if verdict != OtpAccepted {
        return Failure(400);
      }
      user := user.(isVerified := true);
      user := user.(otpCode := None, otpExpiry := None);
      users := users[k := user];
      r := Success(user.id);
    }

    /** POST /api/auth/resend-otp: replace the account's code and expiry. */
    method ResendOtp(channel: string, email: string, phone: string, otp: string, now: int) returns (r: Reply)
      modifies this
      ensures transactions == old(transactions) && budgets == old(budgets) && nextId == old(nextId)
      ensures UserByMethod(old(users), channel, email, phone).None? ==> r == Failure(404) && users == old(users)
      ensures UserByMethod(old(users), channel, email, phone).Some? ==>
        var k := UserByMethod(old(users), channel, email, phone).value;
        r == Success(old(users)[k].id) &&
        users == old(users)[k := old(users)[k].(otpCode := Some(otp), otpExpiry := Some(now + OtpLifetime))]
    {
      var found := UserByMethod(users, channel, email, phone);
      if found.None? {
        return Failure(404);
      }
      var k := found.value;
      users := users[k := users[k].(otpCode := Some(otp), otpExpiry := Some(now + OtpLifetime))];
      r := Success(users[k].id);
    }

    /** POST /api/auth/send-otp: the phone sign-in variant of ResendOtp. */
    method SendOtp(phone: string, otp: string, now: int) returns (r: Reply)
      modifies this
      ensures transactions == old(transactions) && budgets == old(budgets) && nextId == old(nextId)
      ensures UserByPhone(old(users), phone).None? ==> r == Failure(404) && users == old(users)
      ensures UserByPhone(old(users), phone).Some? ==>
        var k := UserByPhone(old(users), phone).value;
        r == Success(old(users)[k].id) &&
        users == old(users)[k := old(users)[k].(otpCode := Some(otp), otpExpiry := Some(now + OtpLifetime))]
    {
      var found := UserByPhone(users, phone);
      if found.None? {
        return Failure(404);
      }
      var k := found.value;
      users := users[k := users[k].(otpCode := Some(otp), otpExpiry := Some(now + OtpLifetime))];
      r := Success(users[k].id);
    }

    /** POST /api/auth/verify-signin-otp (with the corrected code check):
        clear the code and sign in; `isVerified` is left as it is. */
    method VerifySigninOtp(phone: string, otp: Option<string>, now: int) returns (r: Reply)
      modifies this
      ensures transactions == old(transactions) && budgets == old(budgets) && nextId == old(nextId)
      ensures UserByPhone(old(users), phone).None? ==> r == Failure(404) && users == old(users)
      ensures UserByPhone(old(users), phone).Some? ==>
        var k := UserByPhone(old(users), phone).value;
        match OtpCheck(old(users)[k], otp, now)
        case OtpAccepted =>
          r == Success(old(users)[k].id) &&
          users == old(users)[k := old(users)[k].(otpCode := None, otpExpiry := None)]
        case _ => r == Failure(400) && users == old(users)
    {
      var found := UserByPhone(users, phone);
      if found.None? {
        return Failure(404);
      }
      var k := found.value;
      if OtpCheck(users[k], otp, now) != OtpAccepted {
        return Failure(400);
      }
      users := users[k := users[k].(otpCode := None, otpExpiry := None)];
      r := Success(users[k].id);
    }

    /** POST /api/auth/signin: `passwordMatches` stands for `bcrypt.compare`.
        An unverified account is refused before its password is looked at. */
    method SignIn(channel: string, email: string, phone: string, password: string,
                  passwordMatches: (string, string) -> bool) returns (r: Reply)
      ensures UserByMethod(users, channel, email, phone).None? ==> r == Failure(404)
      ensures UserByMethod(users, channel, email, phone).Some? ==>
        var u := users[UserByMethod(users, channel, email, phone).value];
        && (!u.isVerified ==> r == Failure(403))
        && (u.isVerified && !passwordMatches(password, u.password) ==> r == Failure(401))
        && (r.Success? <==> u.isVerified && passwordMatches(password, u.password))
        && (r.Success? ==> r.id == u.id)
    {
      var found := UserByMethod(users, channel, email, phone);
      if found.None? {
        return Failure(404);
      }
      var user := users[found.value];
      if !user.isVerified {
        return Failure(403);
      }
      if !passwordMatches(password, user.password) {
        return Failure(401);
      }
      r := Success(user.id);
    }

    /** POST /api/transactions for the signed-in `owner`. */
    method CreateTransaction(owner: nat, req: TxRequest) returns (r: Reply)
      requires Valid()
      modifies this
      ensures Valid()
      ensures users == old(users)
      ensures MissingField(req) ==> r == Failure(400) && unchanged(this)
      ensures !MissingField(req) && ParseKind(req.kind).None? ==> r == Failure(500) && unchanged(this)
      ensures !MissingField(req) && ParseKind(req.kind).Some? ==>
        var d := TxDoc(old(nextId), owner, ParseKind(req.kind).value, req.category, req.amount, req.date.value, req.description);
        && r == Success(d.id)
        && transactions == old(transactions) + [d]
        && budgets == CreatedBudgets(old(budgets), d)
    {
      if req.kind == "" || req.category == "" || req.amount == 0 || req.date.None? {
        return Failure(400);
      }
      var kind := ParseKind(req.kind);
      if kind.None? {
        return Failure(500);
      }
      var id := FreshId();
      var d := TxDoc(id, owner, kind.value, req.category, req.amount, req.date.value, req.description);
      transactions := transactions + [d];
      if kind.value == Expense {
        AdjustBudget(owner, req.category, req.amount);
      }
      CreateKeepsTracking(old(budgets), old(transactions), d);
      r := Success(id);
    }

    /** PUT /api/transactions/:id, corrected as in UpdatedBudgets: the body is
        checked before anything is written, and the new document's budget is
        credited whenever it is an expense. */
    method UpdateTransaction(owner: nat, id: nat, req: TxRequest) returns (r: Reply)
      requires Valid()
      modifies this
      ensures Valid()
      ensures users == old(users) && nextId == old(nextId)
      ensures TxById(old(transactions), id, owner).None? ==> r == Failure(404) && unchanged(this)
      ensures TxById(old(transactions), id, owner).Some? && !SavesCleanly(req) ==> r == Failure(500) && unchanged(this)
      ensures TxById(old(transactions), id, owner).Some? && SavesCleanly(req) ==>
        var k := TxById(old(transactions), id, owner).value;
        var d := Replaced(old(transactions)[k], req);
        && r == Success(id)
        && transactions == old(transactions)[k := d]
        && budgets == UpdatedBudgets(old(budgets), old(transactions)[k], d)
    {
      var found := TxById(transactions, id, owner);
      if found.None? {
        return Failure(404);
      }
      if !SavesCleanly(req) {
        return Failure(500);
      }
      var k := found.value;
      var stored := transactions[k];
      var d := Replaced(stored, req);
      assert stored.owner == owner && d.owner == owner;
      if stored.kind == Expense {
        AdjustBudget(owner, stored.category, -stored.amount);
      }
      if d.kind == Expense {
        AdjustBudget(owner, d.category, d.amount);
      }
      assert budgets == UpdatedBudgets(old(budgets), stored, d);
      UpdateKeepsTracking(old(budgets), old(transactions), k, d);
      transactions := transactions[k := d];
      r := Success(id);
    }

    /** DELETE /api/transactions/:id */
    method DeleteTransaction(owner: nat, id: nat) returns (r: Reply)
      requires Valid()
      modifies this
      ensures Valid()
      ensures users == old(users) && nextId == old(nextId)
      ensures TxById(old(transactions), id, owner).None? ==> r == Failure(404) && unchanged(this)
      ensures TxById(old(transactions), id, owner).Some? ==>
        var k := TxById(old(transactions), id, owner).value;
        && r == Success(id)
        && transactions == old(transactions)[..k] + old(transactions)[k + 1..]
        && budgets == DeletedBudgets(old(budgets), old(transactions)[k])
    {
      var found := TxById(transactions, id, owner);
      if found.None? {
        return Failure(404);
      }
      var k := found.value;
      var stored := transactions[k];
      assert stored.owner == owner;
      if stored.kind == Expense {
        AdjustBudget(owner, stored.category, -stored.amount);
      }
      assert budgets == DeletedBudgets(old(budgets), stored);
      DeleteKeepsTracking(old(budgets), old(transactions), k);
      transactions := transactions[..k] + transactions[k + 1..];
      r := Success(id);
    }

    /** POST /api/budgets: refuse a missing field or a second budget for the
        category, else seed `spent` with the existing expense sum. */
    method CreateBudget(owner: nat, category: string, limit: int, color: string) returns (r: Reply)
      requires Valid()
      modifies this
      ensures Valid()
      ensures users == old(users) && transactions == old(transactions)
      ensures category == "" || limit == 0 ==> r == Failure(400) && unchanged(this)
      ensures category != "" && limit != 0 && FirstBudget(old(budgets), owner, category).Some? ==>
        r == Failure(400) && unchanged(this)
      ensures category != "" && limit != 0 && FirstBudget(old(budgets), owner, category).None? ==>
        && r == Success(old(nextId))
        && budgets == old(budgets) + [BudgetDoc(old(nextId), owner, category, limit,
             Spent(transactions, owner, category), if color == "" then DefaultBudgetColor else color)]
    {
      if category == "" || limit == 0 {
        return Failure(400);
      }
      if FirstBudget(budgets, owner, category).Some? {
        return Failure(400);
      }
      var spent := Spent(transactions, owner, category);
      var id := FreshId();
      var b := BudgetDoc(id, owner, category, limit, spent, if color == "" then DefaultBudgetColor else color);
      budgets := budgets + [b];
      CreateBudgetKeepsTracking(old(budgets), transactions, b);
      r := Success(id);
    }

    /** PUT /api/budgets/:id: a falsy limit or colour leaves that field alone. */
    method UpdateBudget(owner: nat, id: nat, limit: int, color: string) returns (r: Reply)
      requires Valid()
      modifies this
      ensures Valid()
      ensures users == old(users) && transactions == old(transactions) && nextId == old(nextId)
      ensures BudgetById(old(budgets), id, owner).None? ==> r == Failure(404) && unchanged(this)
      ensures BudgetById(old(budgets), id, owner).Some? ==>
        var k := BudgetById(old(budgets), id, owner).value;
        var b := old(budgets)[k];
        && r == Success(id)
        && budgets == old(budgets)[k := b.(limit := if limit != 0 then limit else b.limit,
                                           color := if color != "" then color else b.color)]
    {
      var found := BudgetById(budgets, id, owner);
      if found.None? {
        return Failure(404);
      }
      var k := found.value;
      var b := budgets[k];
      if limit != 0 {
        b := b.(limit := limit);
      }
      if color != "" {
        b := b.(color := color);
      }
      budgets := budgets[k := b];
      UpdateBudgetKeepsTracking(old(budgets), transactions, k, b.limit, b.color);
      r := Success(id);
    }

    /** DELETE /api/budgets/:id: the transactions are left alone. */
    method DeleteBudget(owner: nat, id: nat) returns (r: Reply)
      requires Valid()
      modifies this
      ensures Valid()
      ensures users == old(users) && transactions == old(transactions) && nextId == old(nextId)
      ensures BudgetById(old(budgets), id, owner).None? ==> r == Failure(404) && unchanged(this)
      ensures BudgetById(old(budgets), id, owner).Some? ==>
        var k := BudgetById(old(budgets), id, owner).value;
        r == Success(id) && budgets == old(budgets)[..k] + old(budgets)[k + 1..]
    {
      var found := BudgetById(budgets, id, owner);
      if found.None? {
        return Failure(404);
      }
      var k := found.value;
      budgets := budgets[..k] + budgets[k + 1..];
      DeleteBudgetKeepsTracking(old(budgets), transactions, k);
      r := Success(id);
    }
  }
}
