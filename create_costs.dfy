/**
 * The costs editor (`CreateCostsForm`): a list of costs and an editor row. Adding turns the
 * editor into a cost stamped with the clock; editing moves a cost from the list back into the
 * editor. The clock reading is a parameter.
 */
module CreateCosts {
  import opened JsNumbers
  import opened Records
  import Seqs

  /** The categories the editor offers, in the order shown; the first is the default. */
  const CostCategories: seq<Category> := [Materials, Software, Hardware, Services, Travel, Other]

  /** The editor row: `{name, category, amount}` with the amount as typed. */
  datatype Draft = Draft(name: string, category: Category, amount: Field)

  /** The blank editor row. */
  const BlankDraft := Draft("", CostCategories[0], Blank)

  /** One `handleInputChange` call on the editor row, by field name. */
  datatype DraftEdit = SetCostName(name: string) | SetCategory(category: Category) | SetAmount(amount: Field)

  /** The editor row `handleAddCost` accepts: a name and a truthy amount. */
  predicate Addable(d: Draft)
  {
    d.name != "" && Truthy(d.amount)
  }

  /** `{...currentCost, id: Date.now(), amount: parseFloat(currentCost.amount)}`. */
  function AddedCost(d: Draft, now: int): (c: Cost)
    ensures c.id == now && c.name == d.name && c.category == d.category
    ensures c.amount.Number? && ParseFloat(c.amount) == ParseFloat(d.amount)
    ensures ToNumber(c.amount) == ToNumber(d.amount)
  {
    Cost(now, d.name, d.category, Number(ParseFloat(d.amount)))
  }

  /** The editor row a cost is loaded into by `handleEditCost`. */
  function DraftOf(c: Cost): (d: Draft)
    ensures AddedCost(d, c.id) == c.(amount := Number(ParseFloat(c.amount)))
  {
    Draft(c.name, c.category, c.amount)
  }

  /** `prev.filter(cost => cost.id !== costId)`. */
  function WithoutCost(costs: seq<Cost>, id: int): (r: seq<Cost>)
    ensures |r| <= |costs|
    ensures forall i :: 0 <= i < |r| ==> r[i].id != id && r[i] in costs
    ensures forall i :: 0 <= i < |costs| && costs[i].id != id ==> costs[i] in r
  {
    Seqs.Filter(costs, (c: Cost) => c.id != id)
  }

  /** The editor's state. */
  class CostsEditor {
    var costs: seq<Cost>
    var currentCost: Draft

    /** The list starts as the costs passed in and the editor starts blank. */
    constructor(existingCosts: seq<Cost>)
      ensures costs == existingCosts && currentCost == BlankDraft
      ensures currentCost.category == Materials
    {
      costs := existingCosts;
      currentCost := BlankDraft;
    }

    /** `handleInputChange`: sets the named field of the editor row. */
    method HandleInputChange(e: DraftEdit)
      modifies this`currentCost
      ensures currentCost == match e
                             case SetCostName(s) => old(currentCost).(name := s)
                             case SetCategory(k) => old(currentCost).(category := k)
                             case SetAmount(f) => old(currentCost).(amount := f)
    {
      match e {
        case SetCostName(s) => currentCost := currentCost.(name := s);
        case SetCategory(k) => currentCost := currentCost.(category := k);
        case SetAmount(f) => currentCost := currentCost.(amount := f);
      }
    }

    /** `handleAddCost()`: appends the editor row as a cost and blanks the editor; does nothing without a name or an amount. */
    method HandleAddCost(now: int)
      modifies this
      ensures !Addable(old(currentCost)) ==> costs == old(costs) && currentCost == old(currentCost)
      ensures Addable(old(currentCost)) ==>
                costs == old(costs) + [AddedCost(old(currentCost), now)] && currentCost == BlankDraft
    {
      if currentCost.name == "" || !Truthy(currentCost.amount) {
        return;
      }
      costs := costs + [AddedCost(currentCost, now)];
      currentCost := BlankDraft;
    }

    /** `handleRemoveCost(id)`: drops every cost with the id, keeping the others in order. */
    method HandleRemoveCost(id: int)
      modifies this`costs
      ensures costs == WithoutCost(old(costs), id)
    {
      costs := WithoutCost(costs, id);
    }

    /** `handleEditCost(cost)`: loads the cost into the editor and takes it out of the list. */
    method HandleEditCost(c: Cost)
      modifies this
      ensures currentCost == DraftOf(c)
      ensures costs == WithoutCost(old(costs), c.id)
    {
      currentCost := DraftOf(c);
      HandleRemoveCost(c.id);
    }
  }

  // ---- Properties -------------------------------------------------------------------------

  /** Removing keeps the order of what is left. */
  lemma RemoveKeepsOrder(a: seq<Cost>, b: seq<Cost>, id: int)
    ensures WithoutCost(a + b, id) == WithoutCost(a, id) + WithoutCost(b, id)
  {
    Seqs.FilterConcat(a, b, (c: Cost) => c.id != id);
  }

  /**
   * Editing a cost and adding it back unchanged puts the same name, category and amount at
   * the end of the list, under a new id.
   */
  method EditThenAdd(ed: CostsEditor, c: Cost, now: int)
    requires c.name != "" && Truthy(c.amount)
    modifies ed
    ensures ed.costs == WithoutCost(old(ed.costs), c.id) + [Cost(now, c.name, c.category, Number(ParseFloat(c.amount)))]
    ensures c.amount.Number? ==> ed.costs[|ed.costs| - 1] == c.(id := now)
    ensures ed.currentCost == BlankDraft
  {
    ed.HandleEditCost(c);
    ed.HandleAddCost(now);
  }

  /** A cost of 0 cannot be added back after editing: the editor keeps it and the list loses it. */
  method EditZeroThenAdd(ed: CostsEditor, c: Cost, now: int)
    requires c.amount == Number(Num(0.0))
    modifies ed
    ensures ed.costs == WithoutCost(old(ed.costs), c.id)
    ensures forall i :: 0 <= i < |ed.costs| ==> ed.costs[i].id != c.id
    ensures ed.currentCost == DraftOf(c)
  {
    ed.HandleEditCost(c);
    ed.HandleAddCost(now);
  }

  /** The test's scenario: name "Test Cost", category Materials, amount "100" gives one cost of 100. */
  method AddFromBlank(now: int) returns (ed: CostsEditor)
    ensures |ed.costs| == 1 && ed.costs[0].name == "Test Cost" && ed.costs[0].category == Materials
    ensures ToNumber(ed.costs[0].amount) == 100.0
  {
    ed := new CostsEditor([]);
    ed.HandleInputChange(SetCostName("Test Cost"));
    ed.HandleInputChange(SetCategory(Materials));
    ed.HandleInputChange(SetAmount(Text("100", Num(100.0))));
    ed.HandleAddCost(now);
  }
}
