/** TicketLine.java: one drink and a quantity inside a ticket, its subtotal, and
    the sum of the subtotals of a list of lines. */
module TicketLines {
  import opened Model

  /** The fields of a TicketLine object at one moment. The drink is absent
      where the Java field is null. */
  datatype LineValue = LineValue(ticketLineId: int, ticketId: int, drink: Option<Drink>, quantity: int)

  /** getSubtotal: the drink's price times the quantity, 0 when the line has no drink. */
  function Subtotal(l: LineValue): int
  {
    match l.drink
    case Some(d) => d.price * l.quantity
    case None => 0
  }

  /** The sum of the subtotals of `ls`, as the stream sum over getSubtotal computes it. */
  function Total(ls: seq<LineValue>): int
  {
    if ls == [] then 0 else Total(ls[..|ls| - 1]) + Subtotal(ls[|ls| - 1])
  }

  /** The lines of `ls` that have a drink, in their order. */
  function WithDrink(ls: seq<LineValue>): (r: seq<LineValue>)
    ensures |r| <= |ls|
    ensures forall i :: 0 <= i < |r| ==> r[i].drink.Some? && r[i] in ls
  {
    if ls == [] then []
    else
      var last := ls[|ls| - 1];
      WithDrink(ls[..|ls| - 1]) + (if last.drink.Some? then [last] else [])
  }

  lemma SubtotalRule(l: LineValue)
    ensures l.drink.Some? ==> Subtotal(l) == l.drink.value.price * l.quantity
    ensures l.drink.None? ==> Subtotal(l) == 0
  {
  }

  lemma {:induction false} TotalConcat(a: seq<LineValue>, b: seq<LineValue>)
    ensures Total(a + b) == Total(a) + Total(b)
  {
    if b == [] {
      assert a + b == a;
    } else {
      TotalConcat(a, b[..|b| - 1]);
      assert (a + b)[..|a + b| - 1] == a + b[..|b| - 1];
    }
  }

  lemma TotalSingle(l: LineValue)
    ensures Total([l]) == Subtotal(l)
  {
  }

  /** Replacing one line changes the total by the difference of the two subtotals. */
  lemma TotalUpdate(ls: seq<LineValue>, i: nat, l: LineValue)
    requires i < |ls|
    ensures Total(ls[i := l]) == Total(ls) - Subtotal(ls[i]) + Subtotal(l)
  {
    assert ls == ls[..i] + [ls[i]] + ls[i + 1..];
    assert ls[i := l] == ls[..i] + [l] + ls[i + 1..];
    TotalConcat(ls[..i] + [ls[i]], ls[i + 1..]);
    TotalConcat(ls[..i], [ls[i]]);
    TotalConcat(ls[..i] + [l], ls[i + 1..]);
    TotalConcat(ls[..i], [l]);
    TotalSingle(ls[i]);
    TotalSingle(l);
  }

  /** Removing one line lowers the total by that line's subtotal. */
  lemma TotalRemove(ls: seq<LineValue>, i: nat)
    requires i < |ls|
    ensures Total(ls[..i] + ls[i + 1..]) == Total(ls) - Subtotal(ls[i])
  {
    assert ls == ls[..i] + [ls[i]] + ls[i + 1..];
    TotalConcat(ls[..i] + [ls[i]], ls[i + 1..]);
    TotalConcat(ls[..i], [ls[i]]);
    TotalConcat(ls[..i], ls[i + 1..]);
    TotalSingle(ls[i]);
  }

  /** Lines without a drink contribute nothing: summing only the lines that
      have a drink gives the same total. */
  lemma {:induction false} TotalIgnoresLinesWithoutDrink(ls: seq<LineValue>)
    ensures Total(WithDrink(ls)) == Total(ls)
  {
    if ls != [] {
      var init, last := ls[..|ls| - 1], ls[|ls| - 1];
      TotalIgnoresLinesWithoutDrink(init);
      if last.drink.Some? {
        TotalConcat(WithDrink(init), [last]);
        TotalSingle(last);
      } else {
        assert WithDrink(ls) == WithDrink(init);
      }
    }
  }

  /** A ticket line object; its getters are its fields. */
  class TicketLine {
    var ticketLineId: int
    var ticketId: int
    var drink: Option<Drink>
    var quantity: int

    function Value(): LineValue
      reads this
    {
      LineValue(ticketLineId, ticketId, drink, quantity)
    }

    /** The full constructor stores every field as given. */
    constructor (ticketLineId: int, ticketId: int, drink: Option<Drink>, quantity: int)
      ensures Value() == LineValue(ticketLineId, ticketId, drink, quantity)
    {
      this.ticketLineId := ticketLineId;
      this.ticketId := ticketId;
      this.drink := drink;
      this.quantity := quantity;
    }

    /** The short constructor, for a line not yet stored: both identifiers are 0. */
    constructor New(drink: Option<Drink>, quantity: int)
      ensures Value() == LineValue(0, 0, drink, quantity)
    {
      this.ticketLineId := 0;
      this.ticketId := 0;
      this.drink := drink;
      this.quantity := quantity;
    }

    method SetTicketLineId(ticketLineId: int)
      modifies this
      ensures Value() == old(Value()).(ticketLineId := ticketLineId)
    {
      this.ticketLineId := ticketLineId;
    }

    method SetTicketId(ticketId: int)
      modifies this
      ensures Value() == old(Value()).(ticketId := ticketId)
    {
      this.ticketId := ticketId;
    }

    method SetDrink(drink: Option<Drink>)
      modifies this
      ensures Value() == old(Value()).(drink := drink)
    {
      this.drink := drink;
    }

    method SetQuantity(quantity: int)
      modifies this
      ensures Value() == old(Value()).(quantity := quantity)
    {
      this.quantity := quantity;
    }
  }

  /** The values held by a list of line objects, element by element. */
  function Values(ls: seq<TicketLine>): (vs: seq<LineValue>)
    reads ls
    ensures |vs| == |ls|
    ensures forall i :: 0 <= i < |ls| ==> vs[i] == ls[i].Value()
  {
    if ls == [] then [] else Values(ls[..|ls| - 1]) + [ls[|ls| - 1].Value()]
  }
}
