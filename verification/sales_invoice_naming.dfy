/** `sales_invoice_naming`, the `before_insert` hook of POS invoices: pick
    the naming series from the restaurant's prefixes by order type, and for
    an aggregator order of a branch that marks such orders unpaid, clear
    `is_pos`. */
module SalesInvoiceNaming {
  import opened Wrappers

  const SeriesStem: string := "SINV-"

  /** `restaurant_prefix` and `restaurant` of the invoice's POS profile. */
  datatype NamingProfile = NamingProfile(restaurantPrefix: int, restaurant: Option<string>)

  /** The reads the hook makes: the profile (`None` when `get_value` finds
      none), the restaurant's two series prefixes, and the branch's
      `custom_make_unpaid`. */
  datatype NamingLookups = NamingLookups(
    profile: Option<NamingProfile>,
    aggregatorSeriesPrefix: string -> Option<string>,
    invoiceSeriesPrefix: string -> Option<string>,
    makeUnpaid: string -> Option<int>)

  /** What the hook does to the invoice: the new naming series, if any, and
      whether `is_pos` is cleared. */
  datatype NamingUpdate = NamingUpdate(series: Option<string>, clearIsPos: bool)

  /** The hook raises: no profile row (`.get` on `None`) or a missing prefix
      (`"SINV-" + None`). */
  datatype HookError = ProfileNotFound | PrefixMissing(restaurant: string)

  predicate StartsWith(s: string, prefix: string)
  {
    |prefix| <= |s| && s[..|prefix|] == prefix
  }

  /** The hook enables prefixed naming only for a profile with
      `restaurant_prefix == 1` and a restaurant set. */
  predicate PrefixEnabled(p: NamingProfile)
  {
    p.restaurantPrefix == 1 && Truthy(p.restaurant)
  }

  /** The hook's decision for an invoice of `orderType` in `branch`. */
  function NamingPlan(orderType: string, branch: string, lookups: NamingLookups): (r: Result<NamingUpdate, HookError>)
    ensures lookups.profile.None? ==> r == Err(ProfileNotFound)
    ensures r.Ok? && r.value.series.Some? ==> StartsWith(r.value.series.value, SeriesStem)
    ensures r.Ok? ==> (r.value.series.Some? <==> PrefixEnabled(lookups.profile.value))
    ensures r.Ok? && r.value.clearIsPos ==>
      && orderType == "Aggregators"
      && PrefixEnabled(lookups.profile.value)
      && lookups.makeUnpaid(branch) == Some(1)
    ensures lookups.profile.Some? && PrefixEnabled(lookups.profile.value) ==>
      var restaurant := lookups.profile.value.restaurant.value;
      var prefix := if orderType == "Aggregators" then lookups.aggregatorSeriesPrefix(restaurant)
                    else lookups.invoiceSeriesPrefix(restaurant);
      match prefix
      case None => r == Err(PrefixMissing(restaurant))
      case Some(p) =>
        && r.Ok?
        && r.value.series == Some(SeriesStem + p)
        && (r.value.clearIsPos <==> orderType == "Aggregators" && lookups.makeUnpaid(branch) == Some(1))
    ensures lookups.profile.Some? && !PrefixEnabled(lookups.profile.value) ==>
      r == Ok(NamingUpdate(None, false))
  {
    match lookups.profile
    case None => Err(ProfileNotFound)
    case Some(profile) =>
      if !PrefixEnabled(profile) then Ok(NamingUpdate(None, false))
      else
        var restaurant := profile.restaurant.value;
        if orderType == "Aggregators" then
          match lookups.aggregatorSeriesPrefix(restaurant)
          case None => Err(PrefixMissing(restaurant))
          case Some(p) => Ok(NamingUpdate(Some(SeriesStem + p), lookups.makeUnpaid(branch) == Some(1)))
        else
          match lookups.invoiceSeriesPrefix(restaurant)
          case None => Err(PrefixMissing(restaurant))
          case Some(p) => Ok(NamingUpdate(Some(SeriesStem + p), false))
  }

  /** The fields of a new POS invoice that the hook reads or writes. */
  class SalesInvoice {
    var posProfile: string
    var orderType: string
    var branch: string
    var namingSeries: string
    var isPos: int

    constructor (posProfile: string, orderType: string, branch: string, namingSeries: string, isPos: int)
      ensures this.posProfile == posProfile && this.orderType == orderType && this.branch == branch
      ensures this.namingSeries == namingSeries && this.isPos == isPos
    {
      this.posProfile := posProfile;
      this.orderType := orderType;
      this.branch := branch;
      this.namingSeries := namingSeries;
      this.isPos := isPos;
    }
  }

  /** `sales_invoice_naming(doc, method)`. `lookups` holds the database's
      answers for this invoice's profile, restaurant and branch. On a raise
      the invoice is left as it was. */
  method SalesInvoiceNamingHook(doc: SalesInvoice, lookups: NamingLookups) returns (outcome: Result<(), HookError>)
    modifies doc`namingSeries, doc`isPos
    ensures doc.posProfile == old(doc.posProfile) && doc.orderType == old(doc.orderType) && doc.branch == old(doc.branch)
    ensures var plan := NamingPlan(doc.orderType, doc.branch, lookups);
      && (outcome.Ok? <==> plan.Ok?)
      && (plan.Err? ==> outcome == Err(plan.error))
      && doc.namingSeries == (if plan.Ok? && plan.value.series.Some? then plan.value.series.value else old(doc.namingSeries))
      && doc.isPos == (if plan.Ok? && plan.value.clearIsPos then 0 else old(doc.isPos))
  {
    if lookups.profile.None? {
      return Err(ProfileNotFound);
    }
    var profile := lookups.profile.value;
    var restaurant := profile.restaurant;
    if profile.restaurantPrefix == 1 && Truthy(restaurant) {
      if doc.orderType == "Aggregators" {
        var prefix := lookups.aggregatorSeriesPrefix(restaurant.value);
        if prefix.None? {
          return Err(PrefixMissing(restaurant.value));
        }
        doc.namingSeries := SeriesStem + prefix.value;
        if lookups.makeUnpaid(doc.branch) == Some(1) {
          doc.isPos := 0;
        }
      } else {
        var prefix := lookups.invoiceSeriesPrefix(restaurant.value);
        if prefix.None? {
          return Err(PrefixMissing(restaurant.value));
        }
        doc.namingSeries := SeriesStem + prefix.value;
      }
    }
    outcome := Ok(());
  }
}
