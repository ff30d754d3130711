/** Manager-approved voiding of one POS invoice item.

    The user directory, the "Role Permitted" child table and the password
    check are read through a `Directory` of oracles; the invoice is an object
    whose voided-items child list the handler appends to. */
module VoidItems {
  import opened Wrappers
  import opened Roles

  /** A "User" document: its name and the `role` of each row of its roles. */
  datatype User = User(name: string, roles: seq<string>)

  /** Outcome of `frappe.get_doc`: the document, `DoesNotExistError`, or any
      other exception. */
  datatype DocFetch<T> = Found(doc: T) | DoesNotExist | FetchRaised

  /** Outcome of `frappe.get_all`: the rows, or an exception. */
  datatype RowsFetch<T> = Rows(rows: seq<T>) | QueryRaised

  /** Outcome of `check_password`: it returns, raises `AuthenticationError`,
      or raises anything else. */
  datatype PasswordCheck = PasswordAccepted | AuthenticationError | CheckRaised

  /** The reads `validate_manager` makes: user by name, the roles allowed to
      void for a POS profile, and the password check for (user, password). */
  datatype Directory = Directory(
    users: string -> DocFetch<User>,
    voidRoles: string -> RowsFetch<string>,
    checkPassword: (string, string) -> PasswordCheck)

  /** The message tags of the handlers' failure replies. */
  datatype Message =
    | NoPermission
    | UserNotFound
    | WrongCredentials
    | ValidationFault
    | InvoiceNotDraft(status: string)
    | VoidFault

  /** The `{"success": ..., "message": ...}` dictionary. */
  datatype Reply = Success | Failure(message: Message)

  /** Message tags `validate_manager` can answer with. */
  predicate IsValidationMessage(m: Message)
  {
    m == NoPermission || m == UserNotFound || m == WrongCredentials || m == ValidationFault
  }

  /** `validate_manager`: look the user up, read the profile's void roles,
      reject a user none of whose roles is allowed, and only then check the
      password. Every exception becomes a tagged failure. */
  function ValidateManager(dir: Directory, username: string, password: string, posProfile: string): (r: Reply)
    ensures r.Success? <==>
      && dir.users(username).Found?
      && dir.voidRoles(posProfile).Rows?
      && AnyIn(dir.users(username).doc.roles, dir.voidRoles(posProfile).rows)
      && dir.checkPassword(dir.users(username).doc.name, password) == PasswordAccepted
    ensures r.Failure? ==> IsValidationMessage(r.message)
    ensures dir.users(username).DoesNotExist? ==> r == Failure(UserNotFound)
    ensures dir.users(username).Found? && dir.voidRoles(posProfile).Rows? ==>
      var user := dir.users(username).doc;
      var allowed := dir.voidRoles(posProfile).rows;
      && (!AnyIn(user.roles, allowed) ==> r == Failure(NoPermission))
      && ((AnyIn(user.roles, allowed) && dir.checkPassword(user.name, password) == AuthenticationError)
            ==> r == Failure(WrongCredentials))
    ensures r == Failure(ValidationFault) <==>
      || dir.users(username).FetchRaised?
      || (dir.users(username).Found? && dir.voidRoles(posProfile).QueryRaised?)
      || (&& dir.users(username).Found? && dir.voidRoles(posProfile).Rows?
          && AnyIn(dir.users(username).doc.roles, dir.voidRoles(posProfile).rows)
          && dir.checkPassword(dir.users(username).doc.name, password) == CheckRaised)
  {
    match dir.users(username)
    case DoesNotExist => Failure(UserNotFound)
    case FetchRaised => Failure(ValidationFault)
    case Found(user) =>
      match dir.voidRoles(posProfile)
      case QueryRaised => Failure(ValidationFault)
      case Rows(allowed) =>
        if !AnyIn(user.roles, allowed) then Failure(NoPermission)
        else
          match dir.checkPassword(user.name, password)
          case PasswordAccepted => Success
          case AuthenticationError => Failure(WrongCredentials)
          case CheckRaised => Failure(ValidationFault)
  }

  /** The role gate comes before the password: for a user whose roles miss
      the profile's void roles, the reply is the same whatever password is
      given and whatever the password check would answer. */
  lemma RoleGateIgnoresPassword(dir: Directory, username: string, password: string, posProfile: string,
                                otherPassword: string, otherCheck: (string, string) -> PasswordCheck)
    requires dir.users(username).Found? && dir.voidRoles(posProfile).Rows?
    requires !AnyIn(dir.users(username).doc.roles, dir.voidRoles(posProfile).rows)
    ensures ValidateManager(dir, username, password, posProfile) == Failure(NoPermission)
    ensures ValidateManager(dir.(checkPassword := otherCheck), username, otherPassword, posProfile)
         == ValidateManager(dir, username, password, posProfile)
  {
  }

  /** An empty void-role list, or a user with no roles, is always refused. */
  lemma EmptyRoleListRefused(dir: Directory, username: string, password: string, posProfile: string)
    requires dir.users(username).Found? && dir.voidRoles(posProfile).Rows?
    requires dir.users(username).doc.roles == [] || dir.voidRoles(posProfile).rows == []
    ensures ValidateManager(dir, username, password, posProfile) == Failure(NoPermission)
  {
  }

  /** One row of the invoice's `custom_voided_items` child table. */
  datatype VoidRecord = VoidRecord(
    item: string,
    rate: real,
    quantity: real,
    amount: real,
    accountability: string,
    notes: string,
    voidedBy: string,
    sessionUser: string)

  /** The `item` argument: its `item` and `rate` keys, `None` when the key is
      missing or its value cannot be multiplied. */
  datatype ItemArg = ItemArg(item: Option<string>, rate: Option<real>)

  /** The record `process_void_item` builds, or `None` when building it
      raises (a missing key, or a `None` quantity in `rate * quantity`). */
  function BuildVoidRecord(item: ItemArg, quantity: Option<real>, accountability: string, notes: string,
                           username: string, sessionUser: string): (r: Option<VoidRecord>)
    ensures r.Some? <==> item.item.Some? && item.rate.Some? && quantity.Some?
    ensures r.Some? ==>
      && r.value.item == item.item.value
      && r.value.rate == item.rate.value
      && r.value.quantity == quantity.value
      && r.value.amount == r.value.rate * r.value.quantity
      && r.value.accountability == accountability
      && r.value.notes == notes
      && r.value.voidedBy == username
      && r.value.sessionUser == sessionUser
  {
    match (item.item, item.rate, quantity)
    case (Some(name), Some(rate), Some(qty)) =>
      Some(VoidRecord(name, rate, qty, rate * qty, accountability, notes, username, sessionUser))
    case _ => None
  }

  /** The invoice as `process_void_item` finds it: `None` when `get_doc`
      raises, else its `docstatus` and `status`. */
  datatype InvoiceState = InvoiceState(docstatus: int, status: string)

  /** The reply of `process_void_item` from the manager check, the record
      built, the invoice found and whether `invoice.save()` raises. */
  function VoidReply(validation: Reply, rec: Option<VoidRecord>, invoice: Option<InvoiceState>, saveRaises: bool): (r: Reply)
    ensures validation.Failure? ==> r == validation
    ensures r.Success? <==>
      validation.Success? && rec.Some? && invoice.Some? && invoice.value.docstatus == 0 && !saveRaises
    ensures validation.Success? && rec.Some? && invoice.Some? && invoice.value.docstatus != 0 ==>
      r == Failure(InvoiceNotDraft(invoice.value.status))
    ensures validation.Success? && (rec.None? || invoice.None? || (invoice.value.docstatus == 0 && saveRaises)) ==>
      r == Failure(VoidFault)
  {
    if validation.Failure? then validation
    else if rec.None? || invoice.None? then Failure(VoidFault)
    else if invoice.value.docstatus != 0 then Failure(InvoiceNotDraft(invoice.value.status))
    else if saveRaises then Failure(VoidFault)
    else Success
  }

  /** A "POS Invoice" document: its lifecycle fields and its voided items. */
  class PosInvoice {
    var docstatus: int
    var status: string
    var voidedItems: seq<VoidRecord>

    constructor (docstatus: int, status: string, voidedItems: seq<VoidRecord>)
      ensures this.docstatus == docstatus && this.status == status && this.voidedItems == voidedItems
    {
      this.docstatus := docstatus;
      this.status := status;
      this.voidedItems := voidedItems;
    }

    function State(): (s: InvoiceState)
      reads this
      ensures s.docstatus == docstatus && s.status == status
    {
      InvoiceState(docstatus, status)
    }

    /** `invoice.append("custom_voided_items", rec)` followed by a save that
        succeeds: the record lands at the end of the child list. */
    method AppendVoidedItem(rec: VoidRecord)
      modifies this`voidedItems
      ensures voidedItems == old(voidedItems) + [rec]
    {
      voidedItems := voidedItems + [rec];
    }
  }

  /** `process_void_item` for one item. `invoice` is `null` when
      `frappe.get_doc` raises; `saveRaises` says whether `invoice.save()`
      raises, in which case nothing is stored. */
  method ProcessVoidItem(dir: Directory, invoice: PosInvoice?, item: ItemArg, quantity: Option<real>,
                         accountability: string, notes: string, username: string, password: string,
                         posProfile: string, sessionUser: string, saveRaises: bool)
    returns (r: Reply)
    modifies invoice
    ensures var rec := BuildVoidRecord(item, quantity, accountability, notes, username, sessionUser);
            var found := if invoice == null then None else Some(old(invoice.State()));
            r == VoidReply(ValidateManager(dir, username, password, posProfile), rec, found, saveRaises)
    ensures invoice != null ==>
      && invoice.docstatus == old(invoice.docstatus)
      && invoice.status == old(invoice.status)
      && invoice.voidedItems ==
           if r.Success?
           then old(invoice.voidedItems) + [BuildVoidRecord(item, quantity, accountability, notes, username, sessionUser).value]
           else old(invoice.voidedItems)
  {
    var allowed := ValidateManager(dir, username, password, posProfile);
    if allowed.Success? {
      var rec := BuildVoidRecord(item, quantity, accountability, notes, username, sessionUser);
      if rec.None? {
        return Failure(VoidFault);
      }
      if invoice == null {
        return Failure(VoidFault);
      }
      if invoice.docstatus == 0 {
        if saveRaises {
          return Failure(VoidFault);
        }
        invoice.AppendVoidedItem(rec.value);
        r := Success;
      } else {
        r := Failure(InvoiceNotDraft(invoice.status));
      }
    } else {
      r := allowed;
    }
  }

  /** Consequences of the reply for the stored invoice: a record is added
      exactly when the reply is a success, which needs a draft invoice and an
      authorised manager, and the record carries `amount == rate * quantity`. */
  lemma SuccessNeedsDraftAndManager(dir: Directory, item: ItemArg, quantity: Option<real>,
                                    accountability: string, notes: string, username: string, password: string,
                                    posProfile: string, sessionUser: string, invoice: Option<InvoiceState>, saveRaises: bool)
    requires VoidReply(ValidateManager(dir, username, password, posProfile),
                       BuildVoidRecord(item, quantity, accountability, notes, username, sessionUser),
                       invoice, saveRaises).Success?
    ensures invoice.Some? && invoice.value.docstatus == 0
    ensures dir.users(username).Found?
    ensures AnyIn(dir.users(username).doc.roles, dir.voidRoles(posProfile).rows)
    ensures var rec := BuildVoidRecord(item, quantity, accountability, notes, username, sessionUser).value;
            rec.amount == item.rate.value * quantity.value && rec.voidedBy == username
  {
  }
}
