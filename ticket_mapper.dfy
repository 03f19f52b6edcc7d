/** TicketMapper.java: conversion between the application's ticket lines and the
    stored ticket items. The drink catalogue lookup the mapper is built with
    (DrinkDAO.getDrinkById) is an abstract function from drink identifier to an
    optional drink, fixed when the mapper is constructed. */
module TicketMapping {
  import opened Model
  import opened TicketLines

  /** toTicketItem on values: identifiers and quantity are copied; the drink is
      stored by identifier with its price, and a line without a drink gets
      identifier 0 and price 0. */
  function ItemOf(l: LineValue): TicketItem
  {
    var drinkId := if l.drink.Some? then l.drink.value.drinkId else 0;
    var price := if l.drink.Some? then l.drink.value.price else 0;
    TicketItem(l.ticketLineId, l.ticketId, drinkId, l.quantity, price)
  }

  /** toTicketLine on values: identifiers and quantity are copied and the drink
      is whatever the catalogue returns for the item's drink identifier. */
  function LineOf(item: TicketItem, drinkById: int -> Option<Drink>): LineValue
  {
    LineValue(item.itemId, item.ticketId, drinkById(item.drinkId), item.quantity)
  }

  /** toTicketItemList on values, element by element. */
  function ItemsOf(ls: seq<LineValue>): (r: seq<TicketItem>)
    ensures |r| == |ls|
    ensures forall i :: 0 <= i < |ls| ==> r[i] == ItemOf(ls[i])
  {
    if ls == [] then [] else ItemsOf(ls[..|ls| - 1]) + [ItemOf(ls[|ls| - 1])]
  }

  /** The value of a stored item: its captured unit price times its quantity. */
  function ItemAmount(item: TicketItem): int
  {
    item.price * item.quantity
  }

  /** The sum of the amounts of `items`. */
  function ItemsTotal(items: seq<TicketItem>): int
  {
    if items == [] then 0 else ItemsTotal(items[..|items| - 1]) + ItemAmount(items[|items| - 1])
  }

  // ---------------------------------------------------------------------------
  // Properties of the conversions

  /** toTicketItem keeps the line and ticket identifiers and the quantity, and
      stores the drink's identifier and price, or 0 and 0 without a drink. */
  lemma ItemOfFields(l: LineValue)
    ensures ItemOf(l).itemId == l.ticketLineId && ItemOf(l).ticketId == l.ticketId
    ensures ItemOf(l).quantity == l.quantity
    ensures l.drink.Some? ==> ItemOf(l).drinkId == l.drink.value.drinkId && ItemOf(l).price == l.drink.value.price
    ensures l.drink.None? ==> ItemOf(l).drinkId == 0 && ItemOf(l).price == 0
  {
  }

  /** toTicketLine keeps the item and ticket identifiers and the quantity, and
      takes the drink from the catalogue. */
  lemma LineOfFields(item: TicketItem, drinkById: int -> Option<Drink>)
    ensures LineOf(item, drinkById).ticketLineId == item.itemId
    ensures LineOf(item, drinkById).ticketId == item.ticketId
    ensures LineOf(item, drinkById).quantity == item.quantity
    ensures LineOf(item, drinkById).drink == drinkById(item.drinkId)
  {
  }

  /** Converting a line to an item and back keeps its identifiers and quantity;
      when the catalogue still returns the line's drink for its identifier the
      round trip gives the line back unchanged. */
  lemma RoundTrip(l: LineValue, drinkById: int -> Option<Drink>)
    ensures LineOf(ItemOf(l), drinkById).ticketLineId == l.ticketLineId
    ensures LineOf(ItemOf(l), drinkById).ticketId == l.ticketId
    ensures LineOf(ItemOf(l), drinkById).quantity == l.quantity
    ensures l.drink.Some? && drinkById(l.drink.value.drinkId) == l.drink ==> LineOf(ItemOf(l), drinkById) == l
  {
  }

  /** A stored item is worth what its line's subtotal was: the price captured in
      the item is the drink's price, and a line without a drink is worth 0 both ways. */
  lemma ItemAmountIsSubtotal(l: LineValue)
    ensures ItemAmount(ItemOf(l)) == Subtotal(l)
  {
  }

  /** Storing a list of lines as items keeps the ticket total. */
  lemma {:induction false} ItemsTotalIsTotal(ls: seq<LineValue>)
    ensures ItemsTotal(ItemsOf(ls)) == Total(ls)
  {
    if ls != [] {
      var init := ls[..|ls| - 1];
      ItemsTotalIsTotal(init);
      assert ItemsOf(ls)[..|ls| - 1] == ItemsOf(init);
      ItemAmountIsSubtotal(ls[|ls| - 1]);
    }
  }

  // ---------------------------------------------------------------------------
  // The mapper object

  class TicketMapper {
    /** The catalogue lookup (drinkDAO.getDrinkById); None where it returns null. */
    const drinkById: int -> Option<Drink>

    constructor (drinkById: int -> Option<Drink>)
      ensures this.drinkById == drinkById
    {
      this.drinkById := drinkById;
    }

    /** toTicketLine: a new line object holding the item's identifiers and
        quantity and the catalogue's drink. */
    method ToTicketLine(item: TicketItem) returns (line: TicketLine)
      ensures fresh(line)
      ensures line.Value() == LineOf(item, drinkById)
    {
      var drink := drinkById(item.drinkId);
      line := new TicketLine(item.itemId, item.ticketId, drink, item.quantity);
    }

    /** toTicketItem: reads the line object's fields. */
    method ToTicketItem(line: TicketLine) returns (item: TicketItem)
      ensures item == ItemOf(line.Value())
    {
      item := ItemOf(line.Value());
    }

    /** toTicketLineList: one new line object per item, in order, no two the same. */
    method ToTicketLineList(items: seq<TicketItem>) returns (lines: seq<TicketLine>)
      ensures |lines| == |items|
      ensures forall i :: 0 <= i < |items| ==> fresh(lines[i]) && lines[i].Value() == LineOf(items[i], drinkById)
      ensures forall i, j :: 0 <= i < j < |lines| ==> lines[i] != lines[j]
    {
      lines := [];
      for k := 0 to |items|
        invariant |lines| == k
        invariant forall i :: 0 <= i < k ==> fresh(lines[i]) && lines[i].Value() == LineOf(items[i], drinkById)
        invariant forall i, j :: 0 <= i < j < k ==> lines[i] != lines[j]
      {
        var line := ToTicketLine(items[k]);
        lines := lines + [line];
      }
    }

    /** toTicketItemList: one item per line object, in order. */
    method ToTicketItemList(lines: seq<TicketLine>) returns (items: seq<TicketItem>)
      ensures |items| == |lines|
      ensures forall i :: 0 <= i < |lines| ==> items[i] == ItemOf(lines[i].Value())
    {
      items := [];
      for k := 0 to |lines|
        invariant |items| == k
        invariant forall i :: 0 <= i < k ==> items[i] == ItemOf(lines[i].Value())
      {
        var item := ToTicketItem(lines[k]);
        items := items + [item];
      }
    }
  }
}
