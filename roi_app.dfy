/**
 * The calculator page's state: the organisation form, the selection map, the
 * subscription-cost field and the last computed results. Each handler applies
 * the matching updater of RoiCalc; CalculateResults is the effect that
 * recomputes the results from the current inputs.
 */
module RoiApp {
  import opened Wrappers
  import opened RoiCalc

  class App {
    const host: Host
    var organizationInfo: OrganizationInfo
    var selectedUseCases: Selections
    var subscriptionCost: string
    var results: Option<Results>

    /** The selection map holds exactly one entry per use case. */
    ghost predicate Valid()
      reads this
    {
      selectedUseCases.Keys == UseCaseNames()
    }

    /** The shown results are those of the current inputs. */
    ghost predicate Current()
      reads this
    {
      CoversUseCases(selectedUseCases) &&
      results == Some(Calculate(host, organizationInfo, selectedUseCases, subscriptionCost))
    }

    /** The page's initial state: default employee cost, nothing selected, no subscription cost, no results yet. */
    constructor(host: Host)
      ensures Valid()
      ensures this.host == host
      ensures organizationInfo == INITIAL_ORGANIZATION
      ensures selectedUseCases == InitialSelections()
      ensures forall n :: n in selectedUseCases ==> !selectedUseCases[n].selected
      ensures subscriptionCost == ""
      ensures results == None
    {
      var sel := InitialSelections();
      this.host := host;
      organizationInfo := INITIAL_ORGANIZATION;
      selectedUseCases := sel;
      subscriptionCost := "";
      results := None;
    }

    /** An edit of the organisation form; editing the name or the sector leaves current results current. */
    method HandleOrganizationChange(field: OrgField, value: string)
      modifies this
      ensures organizationInfo == OrganizationChange(old(organizationInfo), field, value)
      ensures selectedUseCases == old(selectedUseCases)
      ensures subscriptionCost == old(subscriptionCost)
      ensures results == old(results)
      ensures old(Valid()) ==> Valid()
      ensures old(Current()) && field != ItEmployeeCost ==> Current()
    {
      var org := OrganizationChange(organizationInfo, field, value);
      if field != ItEmployeeCost && CoversUseCases(selectedUseCases) {
        CalculateReadsOnlyEmployeeCost(host, organizationInfo, org, selectedUseCases, subscriptionCost);
      }
      organizationInfo := org;
    }

    /** An edit of one use-case row; only that row's edited field changes. */
    method HandleUseCaseChange(name: string, e: Edit)
      requires Valid()
      requires name in UseCaseNames()
      modifies this
      ensures Valid()
      ensures selectedUseCases == UseCaseChange(old(selectedUseCases), name, e)
      ensures organizationInfo == old(organizationInfo)
      ensures subscriptionCost == old(subscriptionCost)
      ensures results == old(results)
    {
      selectedUseCases := UseCaseChange(selectedUseCases, name, e);
    }

    /** An edit of the subscription-cost field, which keeps the typed text. */
    method HandleSubscriptionCostChange(value: string)
      modifies this
      ensures subscriptionCost == value
      ensures organizationInfo == old(organizationInfo)
      ensures selectedUseCases == old(selectedUseCases)
      ensures results == old(results)
      ensures old(Valid()) ==> Valid()
    {
      subscriptionCost := value;
    }

    /** The recalculation: the results become those of the current inputs; the inputs are unchanged. */
    method CalculateResults()
      requires Valid()
      modifies this
      ensures Valid() && Current()
      ensures results == Some(Calculate(host, organizationInfo, selectedUseCases, subscriptionCost))
      ensures organizationInfo == old(organizationInfo)
      ensures selectedUseCases == old(selectedUseCases)
      ensures subscriptionCost == old(subscriptionCost)
    {
      NamesCoverUseCases(selectedUseCases);
      results := Some(Calculate(host, organizationInfo, selectedUseCases, subscriptionCost));
    }
  }
}
