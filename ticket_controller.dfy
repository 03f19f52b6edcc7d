/** TicketController.java: the ticket administration screen. Its handlers are
    guard sequences that either stop with a message or hand a record to the
    database; the model returns that record, or the reason for stopping. What
    the database returns (a parsed form field, the stored ticket, the stored
    lines) is passed in as a parameter. */
module TicketAdmin {
  import opened Model
  import opened TicketLines

  // ---------------------------------------------------------------------------
  // String.trim

  /** The characters String.trim strips: every code point up to the space. */
  predicate IsTrimmable(c: char)
  {
    c <= ' '
  }

  /** Nothing but strippable characters (so the empty string too). */
  predicate Blank(s: string)
  {
    forall i :: 0 <= i < |s| ==> IsTrimmable(s[i])
  }

  /** Drops the strippable characters at the front. */
  function TrimStart(s: string): (r: string)
    ensures |r| <= |s| && r == s[|s| - |r|..]
    ensures Blank(s[..|s| - |r|])
    ensures r != [] ==> !IsTrimmable(r[0])
  {
    if s != [] && IsTrimmable(s[0]) then
      var r := TrimStart(s[1..]);
      assert s[..|s| - |r|] == [s[0]] + s[1..][..|s| - 1 - |r|];
      r
    else s
  }

  /** Drops the strippable characters at the back. */
  function TrimEnd(s: string): (r: string)
    ensures |r| <= |s| && r == s[..|r|]
    ensures Blank(s[|r|..])
    ensures r != [] ==> !IsTrimmable(r[|r| - 1])
  {
    if s != [] && IsTrimmable(s[|s| - 1]) then
      var r := TrimEnd(s[..|s| - 1]);
      assert s[|r|..] == s[..|s| - 1][|r|..] + [s[|s| - 1]];
      r
    else s
  }

  /** String.trim: the text between the strippable characters at either end. */
  function Trim(s: string): string
  {
    TrimEnd(TrimStart(s))
  }

  /** The trimmed text is a stretch of the original with a non-strippable
      character at each end, and everything cut off is strippable. */
  lemma TrimShape(s: string)
    ensures exists a :: (0 <= a <= |s| - |Trim(s)| && Trim(s) == s[a..a + |Trim(s)|]
                         && Blank(s[..a]) && Blank(s[a + |Trim(s)|..]))
    ensures Trim(s) != [] ==> !IsTrimmable(Trim(s)[0]) && !IsTrimmable(Trim(s)[|Trim(s)| - 1])
  {
    var t := TrimStart(s);
    var r := Trim(s);
    var a := |s| - |t|;
    assert r == s[a..a + |r|] by {
      assert r == t[..|r|];
    }
    assert Blank(s[a + |r|..]) by {
      assert Blank(t[|r|..]);
      assert t[|r|..] == s[a + |r|..];
    }
    assert Blank(s[..a]);
  }

  /** A trimmed status is empty exactly when the typed text was blank. */
  lemma TrimEmptyIffBlank(s: string)
    ensures Trim(s) == [] <==> Blank(s)
  {
  }

  // ---------------------------------------------------------------------------
  // handleAddTicket

  /** Why handleAddTicket builds no ticket. */
  datatype AddTicketError = InvalidNumber | EmptyStatus

  /** handleAddTicket. `userId` and `total` are what Integer.parseInt and
      Double.parseDouble make of the trimmed fields (None: NumberFormatException). */
  method HandleAddTicket(userId: Option<int>, total: Option<int>, statusText: string)
    returns (r: Result<Ticket, AddTicketError>)
    ensures r.Ok? <==> userId.Some? && total.Some? && !Blank(statusText)
    ensures userId.None? || total.None? ==> r == Err(InvalidNumber)
    ensures userId.Some? && total.Some? && Blank(statusText) ==> r == Err(EmptyStatus)
    ensures r.Ok? ==> r.value == Ticket(0, userId.value, total.value, Trim(statusText))
  {
    if userId.None? || total.None? {
      return Err(InvalidNumber);
    }
    var status := Trim(statusText);
    TrimEmptyIffBlank(statusText);
    if |status| == 0 {
      return Err(EmptyStatus);
    }
    r := Ok(Ticket(0, userId.value, total.value, status));
  }

  // ---------------------------------------------------------------------------
  // handleAddLine

  /** Why handleAddLine inserts nothing. */
  datatype AddLineError = NoTicketSelected | NoDrinkSelected | InvalidQuantity | NonPositiveQuantity

  /** handleAddLine: the line handed to insertLine, or why there is none. The
      guards run in the source's order. `quantity` is what Integer.parseInt
      makes of the trimmed field (None: NumberFormatException). */
  method HandleAddLine(selected: Option<Ticket>, drink: Option<Drink>, quantity: Option<int>)
    returns (r: Result<LineValue, AddLineError>)
    ensures r.Ok? <==> selected.Some? && drink.Some? && quantity.Some? && quantity.value > 0
    ensures selected.None? ==> r == Err(NoTicketSelected)
    ensures selected.Some? && drink.None? ==> r == Err(NoDrinkSelected)
    ensures selected.Some? && drink.Some? && quantity.None? ==> r == Err(InvalidQuantity)
    ensures selected.Some? && drink.Some? && quantity.Some? && quantity.value <= 0 ==> r == Err(NonPositiveQuantity)
    ensures r.Ok? ==> r.value == LineValue(0, selected.value.ticketId, drink, quantity.value)
  {
    if selected.None? {
      return Err(NoTicketSelected);
    }
    if drink.None? {
      return Err(NoDrinkSelected);
    }
    if quantity.None? {
      return Err(InvalidQuantity);
    }
    if quantity.value <= 0 {
      return Err(NonPositiveQuantity);
    }
    r := Ok(LineValue(0, selected.value.ticketId, drink, quantity.value));
  }

  // ---------------------------------------------------------------------------
  // handleDeleteLine

  /** Why handleDeleteLine deletes nothing. */
  datatype DeleteLineError = TicketAndLineNotSelected

  /** handleDeleteLine: the identifier handed to deleteLine, only when both a
      ticket and a line are selected. */
  method HandleDeleteLine(selected: Option<Ticket>, selectedLine: Option<TicketLine>)
    returns (r: Result<int, DeleteLineError>)
    ensures r.Ok? <==> selected.Some? && selectedLine.Some?
    ensures r.Err? ==> r.error == TicketAndLineNotSelected
    ensures r.Ok? ==> r.value == selectedLine.value.ticketLineId
  {
    if selected.None? || selectedLine.None? {
      return Err(TicketAndLineNotSelected);
    }
    r := Ok(selectedLine.value.ticketLineId);
  }

  // ---------------------------------------------------------------------------
  // updateTicketTotal

  /** The accumulation loop of updateTicketTotal: price times quantity, summed
      over the lines that have a drink. */
  method SumLines(lines: seq<TicketLine>) returns (newTotal: int)
    ensures newTotal == Total(WithDrink(Values(lines)))
    ensures newTotal == Total(Values(lines))
  {
    ghost var vs := Values(lines);
    newTotal := 0;
    for k := 0 to |lines|
      invariant newTotal == Total(vs[..k])
    {
      var drink := lines[k].drink;
      if drink.Some? {
        newTotal := newTotal + drink.value.price * lines[k].quantity;
      }
      assert vs[..k + 1][..k] == vs[..k];
    }
    assert vs[..|lines|] == vs;
    TotalIgnoresLinesWithoutDrink(vs);
  }

  /** updateTicketTotal: `lines` are the ticket's stored lines and `stored` what
      getTicketById returns. The ticket handed back to updateTicket, if any,
      is the stored one with the recomputed total and nothing else changed. */
  method UpdateTicketTotal(lines: seq<TicketLine>, stored: Option<Ticket>) returns (updated: Option<Ticket>)
    ensures updated.Some? <==> stored.Some?
    ensures updated.Some? ==> updated.value == stored.value.(total := Total(Values(lines)))
  {
    var newTotal := SumLines(lines);
    if stored.None? {
      return None;
    }
    updated := Some(stored.value.(total := newTotal));
  }
}
