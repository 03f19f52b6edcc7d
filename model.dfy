/** The plain data records of the ticket logic, reduced to the fields it reads.
    Money is counted exactly, in cents. */
module Model {

  datatype Option<T> = None | Some(value: T)

  datatype Result<T, E> = Ok(value: T) | Err(error: E)

  /** A catalogue drink (Drink.java): its identifier and its unit price. */
  datatype Drink = Drink(drinkId: int, price: int)

  /** A client (User.java): only the identifier a ticket refers to. */
  datatype User = User(userId: int)

  /** A ticket header (Ticket.java); the timestamps are left out. */
  datatype Ticket = Ticket(ticketId: int, userId: int, total: int, status: string)

  /** A stored ticket line (TicketItem.java): the drink by identifier, with the
      unit price captured when the item was made. */
  datatype TicketItem = TicketItem(itemId: int, ticketId: int, drinkId: int, quantity: int, price: int)
}
