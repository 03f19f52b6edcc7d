/** CreateTicketController.java: the basket an operator fills before finishing a
    ticket. The first half specifies the basket on values; the class below keeps
    the list of line objects the controller mutates in place. */
module CreateTicket {
  import opened Model
  import opened TicketLines

  /** The status every ticket finished from the basket gets. */
  const DefaultStatus: string := "CREAT"

  predicate ForDrink(l: LineValue, drinkId: int)
  {
    l.drink.Some? && l.drink.value.drinkId == drinkId
  }

  /** No two lines refer to drinks with the same identifier. */
  ghost predicate NoDuplicateDrinks(ls: seq<LineValue>)
  {
    forall i, j :: 0 <= i < j < |ls| && ls[i].drink.Some? ==> !ForDrink(ls[j], ls[i].drink.value.drinkId)
  }

  /** What every basket satisfies: each line has a drink and no two lines share one. */
  ghost predicate BasketInvariant(ls: seq<LineValue>)
  {
    && (forall i :: 0 <= i < |ls| ==> ls[i].drink.Some?)
    && NoDuplicateDrinks(ls)
  }

  /** No object occurs twice. */
  predicate Distinct<T(==)>(s: seq<T>)
  {
    forall i, j :: 0 <= i < j < |s| ==> s[i] != s[j]
  }

  /** The first line for `drinkId`, as the stream filter and findFirst select it. */
  function FirstLineFor(ls: seq<LineValue>, drinkId: int): (r: Option<nat>)
    ensures r.Some? ==> r.value < |ls| && ForDrink(ls[r.value], drinkId)
    ensures r.Some? ==> forall j :: 0 <= j < r.value ==> !ForDrink(ls[j], drinkId)
    ensures r.None? ==> forall j :: 0 <= j < |ls| ==> !ForDrink(ls[j], drinkId)
  {
    if ls == [] then None
    else if ForDrink(ls[0], drinkId) then Some(0)
    else match FirstLineFor(ls[1..], drinkId)
      case None => None
      case Some(k) => Some(k + 1)
  }

  /** addTicketLine on values: a non-positive quantity is ignored; a line for the
      same drink gets the quantity added; otherwise a new line is appended. */
  function AddLine(ls: seq<LineValue>, drink: Drink, quantity: int): seq<LineValue>
  {
    if quantity <= 0 then ls
    else match FirstLineFor(ls, drink.drinkId)
      case Some(i) => ls[i := ls[i].(quantity := ls[i].quantity + quantity)]
      case None => ls + [LineValue(0, 0, Some(drink), quantity)]
  }

  /** List.remove at a position: every element but the one at `k`, in order. */
  function RemoveAt<T>(s: seq<T>, k: nat): (r: seq<T>)
    requires k < |s|
    ensures |r| == |s| - 1
  {
    s[..k] + s[k + 1..]
  }

  /** The position of the first element identical to `x` (List.indexOf). */
  function IndexOf<T(==)>(s: seq<T>, x: T): (r: Option<nat>)
    ensures r.Some? ==> r.value < |s| && s[r.value] == x && x !in s[..r.value]
    ensures r.None? <==> x !in s
  {
    if s == [] then None
    else if s[0] == x then Some(0)
    else match IndexOf(s[1..], x)
      case None => None
      case Some(k) =>
        assert s[..k + 1] == [s[0]] + s[1..][..k];
        Some(k + 1)
  }

  /** Why handleFinishTicket builds no ticket. */
  datatype FinishError = NoClientSelected | EmptyTicket

  /** The header handleFinishTicket builds from the selected client and the basket. */
  function NewTicket(client: Option<User>, lines: seq<LineValue>): (r: Result<Ticket, FinishError>)
    ensures r.Ok? <==> client.Some? && lines != []
    ensures client.None? ==> r == Err(NoClientSelected)
    ensures client.Some? && lines == [] ==> r == Err(EmptyTicket)
    ensures r.Ok? ==> r.value.userId == client.value.userId && r.value.status == DefaultStatus
    ensures r.Ok? ==> r.value.total == Total(lines) && r.value.ticketId == 0
  {
    if client.None? then Err(NoClientSelected)
    else if lines == [] then Err(EmptyTicket)
    else Ok(Ticket(0, client.value.userId, Total(lines), DefaultStatus))
  }

  /** The sum of the quantities on lines for `drinkId`. */
  function QuantityOf(ls: seq<LineValue>, drinkId: int): int
  {
    if ls == [] then 0
    else QuantityOf(ls[..|ls| - 1], drinkId) + (if ForDrink(ls[|ls| - 1], drinkId) then ls[|ls| - 1].quantity else 0)
  }

  /** The lines that are not for `drinkId`, in their order. */
  function OtherLines(ls: seq<LineValue>, drinkId: int): seq<LineValue>
  {
    if ls == [] then []
    else OtherLines(ls[..|ls| - 1], drinkId) + (if ForDrink(ls[|ls| - 1], drinkId) then [] else [ls[|ls| - 1]])
  }

  /** The unit price at which adding `drink` is charged: that of the drink stored
      on the line it merges into, or its own when a new line is made. */
  function UnitPrice(ls: seq<LineValue>, drink: Drink): int
  {
    match FirstLineFor(ls, drink.drinkId)
    case Some(i) => ls[i].drink.value.price
    case None => drink.price
  }

  // ---------------------------------------------------------------------------
  // Properties of the value-level basket

  lemma AddLineRejects(ls: seq<LineValue>, drink: Drink, quantity: int)
    requires quantity <= 0
    ensures AddLine(ls, drink, quantity) == ls
  {
  }

  /** Adding a drink that already has a line grows the first such line by exactly
      `quantity` and leaves the length and every other line as they were. */
  lemma AddLineMerges(ls: seq<LineValue>, drink: Drink, quantity: int, i: nat)
    requires quantity > 0 && i < |ls| && ForDrink(ls[i], drink.drinkId)
    requires forall j :: 0 <= j < i ==> !ForDrink(ls[j], drink.drinkId)
    ensures |AddLine(ls, drink, quantity)| == |ls|
    ensures AddLine(ls, drink, quantity)[i] == ls[i].(quantity := ls[i].quantity + quantity)
    ensures forall j :: 0 <= j < |ls| && j != i ==> AddLine(ls, drink, quantity)[j] == ls[j]
  {
  }

  /** Adding a drink without a line appends one new line (identifiers 0) at the end. */
  lemma AddLineAppends(ls: seq<LineValue>, drink: Drink, quantity: int)
    requires quantity > 0
    requires forall j :: 0 <= j < |ls| ==> !ForDrink(ls[j], drink.drinkId)
    ensures AddLine(ls, drink, quantity) == ls + [LineValue(0, 0, Some(drink), quantity)]
  {
  }

  /** Adding keeps the basket free of two lines for one drink. */
  lemma AddLinePreservesNoDuplicates(ls: seq<LineValue>, drink: Drink, quantity: int)
    requires NoDuplicateDrinks(ls)
    ensures NoDuplicateDrinks(AddLine(ls, drink, quantity))
  {
  }

  lemma {:induction false} QuantityOfConcat(a: seq<LineValue>, b: seq<LineValue>, drinkId: int)
    ensures QuantityOf(a + b, drinkId) == QuantityOf(a, drinkId) + QuantityOf(b, drinkId)
  {
    if b == [] {
      assert a + b == a;
    } else {
      QuantityOfConcat(a, b[..|b| - 1], drinkId);
      assert (a + b)[..|a + b| - 1] == a + b[..|b| - 1];
    }
  }

  lemma {:induction false} OtherLinesConcat(a: seq<LineValue>, b: seq<LineValue>, drinkId: int)
    ensures OtherLines(a + b, drinkId) == OtherLines(a, drinkId) + OtherLines(b, drinkId)
  {
    if b == [] {
      assert a + b == a;
    } else {
      OtherLinesConcat(a, b[..|b| - 1], drinkId);
      assert (a + b)[..|a + b| - 1] == a + b[..|b| - 1];
    }
  }

  lemma SingleLine(l: LineValue, drinkId: int)
    ensures QuantityOf([l], drinkId) == if ForDrink(l, drinkId) then l.quantity else 0
    ensures OtherLines([l], drinkId) == if ForDrink(l, drinkId) then [] else [l]
  {
  }

  /** Quantities accumulate: adding raises the quantity recorded for that drink
      by exactly `quantity` and leaves the quantity of every other drink alone. */
  lemma AddLineQuantity(ls: seq<LineValue>, drink: Drink, quantity: int, drinkId: int)
    requires quantity > 0
    ensures QuantityOf(AddLine(ls, drink, quantity), drinkId)
         == QuantityOf(ls, drinkId) + (if drinkId == drink.drinkId then quantity else 0)
  {
    match FirstLineFor(ls, drink.drinkId)
    case Some(i) =>
      var l := ls[i].(quantity := ls[i].quantity + quantity);
      assert ls == ls[..i] + [ls[i]] + ls[i + 1..];
      assert AddLine(ls, drink, quantity) == ls[..i] + [l] + ls[i + 1..];
      QuantityOfConcat(ls[..i] + [ls[i]], ls[i + 1..], drinkId);
      QuantityOfConcat(ls[..i], [ls[i]], drinkId);
      QuantityOfConcat(ls[..i] + [l], ls[i + 1..], drinkId);
      QuantityOfConcat(ls[..i], [l], drinkId);
      SingleLine(ls[i], drinkId);
      SingleLine(l, drinkId);
    case None =>
      var l := LineValue(0, 0, Some(drink), quantity);
      QuantityOfConcat(ls, [l], drinkId);
      SingleLine(l, drinkId);
  }

  /** Adding leaves every line for another drink unchanged and in its order. */
  lemma AddLineKeepsOtherLines(ls: seq<LineValue>, drink: Drink, quantity: int)
    ensures OtherLines(AddLine(ls, drink, quantity), drink.drinkId) == OtherLines(ls, drink.drinkId)
  {
    if quantity > 0 {
      var id := drink.drinkId;
      match FirstLineFor(ls, id)
      case Some(i) =>
        var l := ls[i].(quantity := ls[i].quantity + quantity);
        assert ls == ls[..i] + [ls[i]] + ls[i + 1..];
        assert AddLine(ls, drink, quantity) == ls[..i] + [l] + ls[i + 1..];
        OtherLinesConcat(ls[..i] + [ls[i]], ls[i + 1..], id);
        OtherLinesConcat(ls[..i], [ls[i]], id);
        OtherLinesConcat(ls[..i] + [l], ls[i + 1..], id);
        OtherLinesConcat(ls[..i], [l], id);
        SingleLine(ls[i], id);
        SingleLine(l, id);
      case None =>
        var l := LineValue(0, 0, Some(drink), quantity);
        OtherLinesConcat(ls, [l], id);
        SingleLine(l, id);
    }
  }

  /** Adding raises the total by the quantity times the unit price charged. */
  lemma AddLineTotal(ls: seq<LineValue>, drink: Drink, quantity: int)
    requires quantity > 0
    ensures Total(AddLine(ls, drink, quantity)) == Total(ls) + quantity * UnitPrice(ls, drink)
  {
    match FirstLineFor(ls, drink.drinkId)
    case Some(i) =>
      var p := ls[i].drink.value.price;
      TotalUpdate(ls, i, ls[i].(quantity := ls[i].quantity + quantity));
      assert p * (ls[i].quantity + quantity) == p * ls[i].quantity + quantity * p;
    case None =>
      TotalConcat(ls, [LineValue(0, 0, Some(drink), quantity)]);
      TotalSingle(LineValue(0, 0, Some(drink), quantity));
  }

  /** Adding the same drink twice yields one line carrying both quantities. */
  lemma AddTwiceMerges(ls: seq<LineValue>, drink: Drink, a: int, b: int)
    requires a > 0 && b > 0
    requires forall j :: 0 <= j < |ls| ==> !ForDrink(ls[j], drink.drinkId)
    ensures AddLine(AddLine(ls, drink, a), drink, b) == ls + [LineValue(0, 0, Some(drink), a + b)]
  {
    AddLineAppends(ls, drink, a);
    var once := ls + [LineValue(0, 0, Some(drink), a)];
    AddLineMerges(once, drink, b, |ls|);
  }

  /** Adding a drink keeps the basket invariant. */
  lemma AddLinePreservesInvariant(ls: seq<LineValue>, drink: Drink, quantity: int)
    requires BasketInvariant(ls)
    ensures BasketInvariant(AddLine(ls, drink, quantity))
  {
  }

  /** Removing a line keeps the basket invariant. */
  lemma RemovePreservesInvariant(ls: seq<LineValue>, k: nat)
    requires k < |ls| && BasketInvariant(ls)
    ensures BasketInvariant(RemoveAt(ls, k))
  {
  }

  lemma DistinctRemoveAt<T>(s: seq<T>, k: nat)
    requires k < |s| && Distinct(s)
    ensures Distinct(RemoveAt(s, k))
  {
  }

  /** Removing a line lowers the total by that line's subtotal. */
  lemma RemoveTotal(ls: seq<LineValue>, k: nat)
    requires k < |ls|
    ensures Total(RemoveAt(ls, k)) == Total(ls) - Subtotal(ls[k])
  {
    TotalRemove(ls, k);
  }

  // ---------------------------------------------------------------------------
  // The controller's state

  class CreateTicketController {
    /** The basket, in insertion order. */
    var ticketLines: seq<TicketLine>
    /** The client chosen in the client list, if any. */
    var selectedClient: Option<User>
    /** The figure shown in the total label. */
    var total: int
    /** The values the line objects hold, position by position. */
    ghost var lines: seq<LineValue>

    /** `lines` is what the line objects hold, and no object occurs twice, so
        updating one line object changes exactly one position. */
    ghost predicate Holds()
      reads this, ticketLines
    {
      && Distinct(ticketLines)
      && |lines| == |ticketLines|
      && (forall i :: 0 <= i < |ticketLines| ==> ticketLines[i].Value() == lines[i])
    }

    /** The line objects hold `lines`, each line has a drink, no two share a
        drink, and the shown total is the sum of the subtotals. */
    ghost predicate Valid()
      reads this, ticketLines
    {
      && Holds()
      && BasketInvariant(lines)
      && total == Total(lines)
    }

    constructor ()
      ensures Valid()
      ensures ticketLines == [] && lines == [] && selectedClient.None? && total == 0
    {
      ticketLines := [];
      lines := [];
      selectedClient := None;
      total := 0;
    }

    /** The client list's selection listener. */
    method SelectClient(client: Option<User>)
      requires Valid()
      modifies this`selectedClient
      ensures Valid()
      ensures selectedClient == client
    {
      selectedClient := client;
    }

    /** updateTotal: shows the sum of the lines' subtotals. */
    method UpdateTotal()
      requires Holds()
      modifies this`total
      ensures total == Total(lines)
    {
      assert Values(ticketLines) == lines;
      total := Total(Values(ticketLines));
    }

    /** The stream search of addTicketLine: the position of the first line for `drinkId`. */
    method FindLine(drinkId: int) returns (r: Option<nat>)
      requires Valid()
      ensures r == FirstLineFor(lines, drinkId)
    {
      var i := 0;
      while i < |ticketLines| && ticketLines[i].drink.value.drinkId != drinkId
        invariant 0 <= i <= |ticketLines|
        invariant forall j :: 0 <= j < i ==> !ForDrink(lines[j], drinkId)
      {
        i := i + 1;
      }
      if i < |ticketLines| {
        assert ForDrink(lines[i], drinkId);
        r := Some(i);
      } else {
        r := None;
      }
    }

    /** addTicketLine. */
    method AddTicketLine(drink: Drink, quantity: int)
      requires Valid()
      modifies this`ticketLines, this`lines, this`total, ticketLines
      ensures Valid()
      ensures lines == AddLine(old(lines), drink, quantity)
      ensures total == Total(lines)
      ensures old(ticketLines) <= ticketLines
      ensures forall k :: |old(ticketLines)| <= k < |ticketLines| ==> fresh(ticketLines[k])
      ensures quantity <= 0 ==> ticketLines == old(ticketLines) && total == old(total)
      ensures selectedClient == old(selectedClient)
    {
      if quantity <= 0 {
        return;
      }
      var found := FindLine(drink.drinkId);
      if found.Some? {
        MergeInto(found.value, drink, quantity);
      } else {
        AppendLine(drink, quantity);
      }
    }

    /** Grows the quantity of the first line for `drink`, at `i`, in place and
        shows the new total; no other line object changes. */
    method MergeInto(i: nat, drink: Drink, quantity: int)
      requires Valid() && quantity > 0
      requires FirstLineFor(lines, drink.drinkId) == Some(i)
      modifies ticketLines[i], this`lines, this`total
      ensures Valid()
      ensures lines == AddLine(old(lines), drink, quantity)
    {
      AddLinePreservesInvariant(lines, drink, quantity);
      var line := ticketLines[i];
      line.SetQuantity(line.quantity + quantity);
      lines := AddLine(lines, drink, quantity);
      forall j | 0 <= j < |ticketLines|
        ensures ticketLines[j].Value() == lines[j]
      {
        if j != i {
          assert ticketLines[j] != line;
        }
      }
      UpdateTotal();
    }

    /** Appends a new line (identifiers 0) for `drink` and shows the new total. */
    method AppendLine(drink: Drink, quantity: int)
      requires Valid() && quantity > 0
      requires FirstLineFor(lines, drink.drinkId) == None
      modifies this`ticketLines, this`lines, this`total
      ensures Valid()
      ensures lines == AddLine(old(lines), drink, quantity)
      ensures ticketLines == old(ticketLines) + [ticketLines[|ticketLines| - 1]]
      ensures fresh(ticketLines[|ticketLines| - 1])
    {
      AddLinePreservesInvariant(lines, drink, quantity);
      var line := new TicketLine(0, 0, Some(drink), quantity);
      ticketLines := ticketLines + [line];
      lines := AddLine(lines, drink, quantity);
      UpdateTotal();
    }

    /** The delete button: removes the line object if the basket holds it. */
    method RemoveLine(line: TicketLine)
      requires Valid()
      modifies this`ticketLines, this`lines, this`total
      ensures Valid()
      ensures match IndexOf(old(ticketLines), line)
        case Some(k) => ticketLines == RemoveAt(old(ticketLines), k) && lines == RemoveAt(old(lines), k)
        case None => ticketLines == old(ticketLines) && lines == old(lines)
      ensures total == Total(lines)
      ensures selectedClient == old(selectedClient)
    {
      var k := IndexOf(ticketLines, line);
      if k.Some? {
        RemovePreservesInvariant(lines, k.value);
        DistinctRemoveAt(ticketLines, k.value);
        ticketLines := RemoveAt(ticketLines, k.value);
        lines := RemoveAt(lines, k.value);
      }
      UpdateTotal();
    }

    /** clearAll: no client, an empty basket, and a total of 0. */
    method ClearAll()
      modifies this
      ensures Valid()
      ensures ticketLines == [] && lines == [] && selectedClient.None? && total == 0
    {
      selectedClient := None;
      ticketLines := [];
      lines := [];
      UpdateTotal();
    }

    /** handleFinishTicket. `saved` is what the database insert of the header
        reports; only a saved ticket clears the form. */
    method FinishTicket(saved: bool) returns (r: Result<Ticket, FinishError>)
      requires Valid()
      modifies this
      ensures Valid()
      ensures r == NewTicket(old(selectedClient), old(lines))
      ensures r.Ok? && saved ==> ticketLines == [] && selectedClient.None? && total == 0
      ensures !(r.Ok? && saved) ==>
        ticketLines == old(ticketLines) && lines == old(lines)
        && selectedClient == old(selectedClient) && total == old(total)
    {
      if selectedClient.None? {
        return Err(NoClientSelected);
      }
      if |ticketLines| == 0 {
        return Err(EmptyTicket);
      }
      assert Values(ticketLines) == lines;
      var sum := Total(Values(ticketLines));
      r := Ok(Ticket(0, selectedClient.value.userId, sum, DefaultStatus));
      if saved {
        ClearAll();
      }
    }
  }
}
