# Ticket basket of the alcoholic-drinks shop

This project models the ticket logic of a JavaFX shop application. An operator
builds an order, or ticket, as a list of ticket lines. Each line pairs a drink
with a quantity. The ticket total is derived from the lines. The model covers:

- the basket of the ticket-creation screen (`CreateTicketController`): adding a
  drink merges into the existing line for that drink or appends a new one,
  lines can be removed, the basket can be cleared, the shown total is the sum of
  the subtotals, and finishing builds the ticket header;
- the ticket line (`TicketLine`): its two constructors, its setters and its
  subtotal, price × quantity or 0 without a drink;
- the conversion between ticket lines and stored ticket items (`TicketMapper`),
  with the drink catalogue lookup as an abstract function;
- the ticket administration screen (`TicketController`): the loop that
  recomputes a ticket total from its stored lines, and the guards of the
  add-ticket, add-line and delete-line handlers.

Money is counted exactly, as an integer number of cents. Drinks, tickets,
users and ticket items are plain datatypes holding only the fields this logic
reads. Ticket lines are objects, because the basket changes a line's quantity
in place. The ticket-creation screen is a class whose fields are the basket
(a sequence of line objects), the selected client and the shown total. A ghost
field `lines` records the values those objects hold. Its `Valid()` predicate
says four things: the line objects hold `lines`, no object occurs twice, every
line has a drink and no two lines share a drink identifier, and the shown total
is the sum of the subtotals. Every basket operation is proved against a
value-level function: `AddLine`, `RemoveAt` with `IndexOf`, and `NewTicket`.
The lemmas beside those functions state what the source promises.

Modules: `Model` (records), `TicketLines` (`TicketLine.java`), `CreateTicket`
(`CreateTicketController.java`), `TicketMapping` (`TicketMapper.java`),
`TicketAdmin` (`TicketController.java`).

The header built by `handleFinishTicket` carries no lines. The source calls
`ticket.setLines` at `CreateTicketController.java:252`, but `Ticket.java`
declares no lines field and no such setter. The model follows `Ticket.java`.
The basket stays the controller's own state.

## Model

| member | source | states |
|---|---|---|
| `TicketLines.SubtotalRule` | alcoholicdrinks/src/main/java/com/projecteprogramacio/model/TicketLine.java:99-101 | the subtotal is the drink's price times the quantity, and 0 when the line has no drink |
| `TicketLines.TicketLine.constructor` | alcoholicdrinks/src/main/java/com/projecteprogramacio/model/TicketLine.java:36-41 | the full constructor stores all four fields exactly as given |
| `TicketLines.TicketLine.New` | alcoholicdrinks/src/main/java/com/projecteprogramacio/model/TicketLine.java:49-51 | the short constructor sets both identifiers to 0 and keeps the drink and the quantity |
| `TicketLines.TicketLine.SetTicketLineId` | alcoholicdrinks/src/main/java/com/projecteprogramacio/model/TicketLine.java:59-61 | changes the line identifier and no other field |
| `TicketLines.TicketLine.SetTicketId` | alcoholicdrinks/src/main/java/com/projecteprogramacio/model/TicketLine.java:69-71 | changes the ticket identifier and no other field |
| `TicketLines.TicketLine.SetDrink` | alcoholicdrinks/src/main/java/com/projecteprogramacio/model/TicketLine.java:79-81 | changes the drink and no other field |
| `TicketLines.TicketLine.SetQuantity` | alcoholicdrinks/src/main/java/com/projecteprogramacio/model/TicketLine.java:89-91 | changes the quantity and no other field |
| `TicketLines.TotalConcat` | alcoholicdrinks/src/main/java/com/projecteprogramacio/controller/CreateTicketController.java:228 | the sum of subtotals over two lists joined is the sum of their two sums |
| `TicketLines.TotalIgnoresLinesWithoutDrink` | alcoholicdrinks/src/main/java/com/projecteprogramacio/controller/TicketController.java:326-331 | summing only the lines that have a drink gives the full sum of subtotals, since a line without a drink adds nothing |
| `CreateTicket.FirstLineFor` | alcoholicdrinks/src/main/java/com/projecteprogramacio/controller/CreateTicketController.java:212-214 | finds the first line whose drink has the given identifier: that line matches, no earlier line matches, and none is found only when no line matches |
| `CreateTicket.AddLineRejects` | alcoholicdrinks/src/main/java/com/projecteprogramacio/controller/CreateTicketController.java:210 | a quantity of 0 or less leaves the lines unchanged |
| `CreateTicket.AddLineMerges` | alcoholicdrinks/src/main/java/com/projecteprogramacio/controller/CreateTicketController.java:212-217 | when a line for the drink exists, the first such line's quantity grows by exactly the quantity, the length stays the same and every other line is unchanged |
| `CreateTicket.AddLineAppends` | alcoholicdrinks/src/main/java/com/projecteprogramacio/controller/CreateTicketController.java:218-221 | when no line has the drink, one line is appended at the end with identifiers 0, the drink and the quantity |
| `CreateTicket.AddLinePreservesNoDuplicates` | alcoholicdrinks/src/main/java/com/projecteprogramacio/controller/CreateTicketController.java:212-221 | if no two lines share a drink identifier before adding, none do after |
| `CreateTicket.AddLinePreservesInvariant` | alcoholicdrinks/src/main/java/com/projecteprogramacio/controller/CreateTicketController.java:209-221 | adding keeps the basket invariant: every line has a drink and no two share one |
| `CreateTicket.AddLineQuantity` | alcoholicdrinks/src/main/java/com/projecteprogramacio/controller/CreateTicketController.java:212-221 | quantities accumulate: the quantity recorded for the added drink grows by exactly the quantity, and every other drink's quantity stays the same |
| `CreateTicket.AddLineKeepsOtherLines` | alcoholicdrinks/src/main/java/com/projecteprogramacio/controller/CreateTicketController.java:212-221 | the lines for other drinks are unchanged and keep their order |
| `CreateTicket.AddLineTotal` | alcoholicdrinks/src/main/java/com/projecteprogramacio/controller/CreateTicketController.java:209-228 | an accepted add raises the total by the quantity times the unit price: that of the line it merges into, or the drink's own for a new line |
| `CreateTicket.AddTwiceMerges` | alcoholicdrinks/src/main/java/com/projecteprogramacio/controller/CreateTicketController.java:212-221 | adding a new drink twice yields one line for it, carrying the sum of both quantities |
| `CreateTicket.RemovePreservesInvariant` | alcoholicdrinks/src/main/java/com/projecteprogramacio/controller/CreateTicketController.java:156 | removing a line keeps the basket invariant |
| `CreateTicket.RemoveTotal` | alcoholicdrinks/src/main/java/com/projecteprogramacio/controller/CreateTicketController.java:156-157 | removing a line lowers the total by exactly that line's subtotal |
| `CreateTicket.IndexOf` | alcoholicdrinks/src/main/java/com/projecteprogramacio/controller/CreateTicketController.java:156 | List.remove looks up the object: the position found holds it, no earlier position does, and nothing is found only when it is absent |
| `CreateTicket.NewTicket` | alcoholicdrinks/src/main/java/com/projecteprogramacio/controller/CreateTicketController.java:233-251 | no client gives an error, an empty basket gives an error, and otherwise the header has identifier 0, the client's user id, status "CREAT" and the sum of the subtotals as total |
| `CreateTicket.CreateTicketController.constructor` | alcoholicdrinks/src/main/java/com/projecteprogramacio/controller/CreateTicketController.java:51-53 | the screen starts with an empty basket and no client; the initial shown total, which `initialize` never writes, is taken as 0, the sum over the empty basket; the invariant holds |
| `CreateTicket.CreateTicketController.SelectClient` | alcoholicdrinks/src/main/java/com/projecteprogramacio/controller/CreateTicketController.java:72-73 | selecting a client changes the selected client and nothing else |
| `CreateTicket.CreateTicketController.UpdateTotal` | alcoholicdrinks/src/main/java/com/projecteprogramacio/controller/CreateTicketController.java:227-230 | the shown total becomes the sum of the current lines' subtotals |
| `CreateTicket.CreateTicketController.FindLine` | alcoholicdrinks/src/main/java/com/projecteprogramacio/controller/CreateTicketController.java:212-214 | the search over the line objects returns the position that `FirstLineFor` gives on their values |
| `CreateTicket.CreateTicketController.AddTicketLine` | alcoholicdrinks/src/main/java/com/projecteprogramacio/controller/CreateTicketController.java:209-225 | keeps the invariant, and the new lines are `AddLine` of the old ones; a non-positive quantity leaves the line objects and the total as they were; objects are only ever appended, and any appended object is newly allocated; the shown total is the new sum of subtotals; the client is untouched |
| `CreateTicket.CreateTicketController.MergeInto` | alcoholicdrinks/src/main/java/com/projecteprogramacio/controller/CreateTicketController.java:216-217 | sets the matching line object's quantity in place; only that object changes, and the lines become `AddLine` of the old ones |
| `CreateTicket.CreateTicketController.AppendLine` | alcoholicdrinks/src/main/java/com/projecteprogramacio/controller/CreateTicketController.java:218-221 | appends one newly allocated line object at the end, and the lines become `AddLine` of the old ones |
| `CreateTicket.CreateTicketController.RemoveLine` | alcoholicdrinks/src/main/java/com/projecteprogramacio/controller/CreateTicketController.java:154-157 | removes the first occurrence of the object, if any, and nothing else; the invariant holds and the shown total is the new sum |
| `CreateTicket.CreateTicketController.ClearAll` | alcoholicdrinks/src/main/java/com/projecteprogramacio/controller/CreateTicketController.java:267-273 | no client, an empty basket and a total of 0 |
| `CreateTicket.CreateTicketController.FinishTicket` | alcoholicdrinks/src/main/java/com/projecteprogramacio/controller/CreateTicketController.java:233-265 | returns `NewTicket` of the client and the lines; the form is cleared only when a ticket was built and saved, and is otherwise left exactly as it was |
| `TicketMapping.ItemOfFields` | alcoholicdrinks/src/main/java/com/projecteprogramacio/model/TicketMapper.java:24-28 | the item keeps the line id, ticket id and quantity, and takes drink id and price from the drink, or 0 and 0 without one |
| `TicketMapping.LineOfFields` | alcoholicdrinks/src/main/java/com/projecteprogramacio/model/TicketMapper.java:18-21 | the line keeps the item id, ticket id and quantity, and its drink is the lookup result for the item's drink id |
| `TicketMapping.RoundTrip` | alcoholicdrinks/src/main/java/com/projecteprogramacio/model/TicketMapper.java:18-28 | a line converted to an item and back keeps its identifiers and quantity, and is unchanged when the lookup returns its drink |
| `TicketMapping.ItemAmountIsSubtotal` | alcoholicdrinks/src/main/java/com/projecteprogramacio/model/TicketMapper.java:24-28 | the item's captured price times its quantity equals the line's subtotal |
| `TicketMapping.ItemsTotalIsTotal` | alcoholicdrinks/src/main/java/com/projecteprogramacio/model/TicketMapper.java:40-46 | the items made from a list of lines add up to the ticket total of those lines |
| `TicketMapping.TicketMapper.constructor` | alcoholicdrinks/src/main/java/com/projecteprogramacio/model/TicketMapper.java:13-15 | the mapper keeps the catalogue lookup it is given |
| `TicketMapping.TicketMapper.ToTicketLine` | alcoholicdrinks/src/main/java/com/projecteprogramacio/model/TicketMapper.java:18-21 | returns a new line object holding `LineOf` the item |
| `TicketMapping.TicketMapper.ToTicketItem` | alcoholicdrinks/src/main/java/com/projecteprogramacio/model/TicketMapper.java:24-28 | returns `ItemOf` the line object's current values |
| `TicketMapping.TicketMapper.ToTicketLineList` | alcoholicdrinks/src/main/java/com/projecteprogramacio/model/TicketMapper.java:31-37 | same length and order: element i is a new object holding the conversion of item i, and no two elements are the same object |
| `TicketMapping.TicketMapper.ToTicketItemList` | alcoholicdrinks/src/main/java/com/projecteprogramacio/model/TicketMapper.java:40-46 | same length and order: element i is the conversion of line i |
| `TicketAdmin.TrimEmptyIffBlank` | alcoholicdrinks/src/main/java/com/projecteprogramacio/controller/TicketController.java:197-199 | a trimmed status is empty exactly when every character typed is at or below U+0020 |
| `TicketAdmin.TrimShape` | alcoholicdrinks/src/main/java/com/projecteprogramacio/controller/TicketController.java:197 | trimming keeps one contiguous stretch of the text, cuts only strippable characters, and leaves no strippable character at either end |
| `TicketAdmin.HandleAddTicket` | alcoholicdrinks/src/main/java/com/projecteprogramacio/controller/TicketController.java:193-215 | a number that does not parse gives an error, and so does a blank status; otherwise the ticket has identifier 0, the given user id and total, and the trimmed status |
| `TicketAdmin.HandleAddLine` | alcoholicdrinks/src/main/java/com/projecteprogramacio/controller/TicketController.java:270-290 | nothing is inserted without a selected ticket, without a chosen drink, or for a quantity that does not parse or is 0 or less, and the first failing guard names the error; an accepted line has id 0, the selected ticket's id, the drink and the quantity |
| `TicketAdmin.HandleDeleteLine` | alcoholicdrinks/src/main/java/com/projecteprogramacio/controller/TicketController.java:305-313 | a line is deleted only when both a ticket and a line are selected, and then by the selected line's id |
| `TicketAdmin.SumLines` | alcoholicdrinks/src/main/java/com/projecteprogramacio/controller/TicketController.java:325-331 | the loop's result is the sum of price × quantity over the lines that have a drink, which is also the sum of all subtotals |
| `TicketAdmin.UpdateTicketTotal` | alcoholicdrinks/src/main/java/com/projecteprogramacio/controller/TicketController.java:322-336 | when the ticket is found, the ticket written back is the stored one with the recomputed total and no other field changed; otherwise nothing is written |

## Left out

- Database access: every DAO call is outside the model. The stored lines, the stored ticket, whether an insert succeeded and the drink catalogue lookup are parameters or abstract functions. The SQL `SUM` of `TicketLineDAO.calculateTotalByTicketId` is not part of this model; the basket total has the same meaning.
- Ticket header and line persistence: `TicketDAO.insertTicket` writes only the header row. The source has no transaction over header and lines, so none is modelled.
- Number parsing: `Integer.parseInt` and `Double.parseDouble` of the form fields are parameters of type `Option<int>`, where `None` stands for the `NumberFormatException` branch.
- Floating point: prices and totals are `double` in the source and exact integer cents here. Rounding and the `%.2f` formatting of the total label and of `TicketLine.toString` are not modelled.
- Integer width: quantities and identifiers are unbounded integers. Java's 32-bit wrap-around of a merged quantity is not modelled. The quantity spinner limits each added quantity to the range 1 to 100.
- User interface: alerts, status-label texts, table refreshes, cell factories, the spinner cell lookup of the add button, the search fields and FXML loading are not modelled. So is the reload of the line table and ticket table after an insert or delete.
- `TicketController.handleUpdateTicket` is not modelled. It needs a selected ticket, parses the user id and total, and rejects a blank status like `handleAddTicket`. It then writes the user id, total and status into the selected ticket object in place before calling `updateTicket`, so a failed update still leaves the shown ticket changed.
- `TicketController.handleDeleteTicket` is not modelled. It needs a selected ticket and then makes one `deleteTicket` call, with no parsing and no status check.
- Timestamps, the name and other catalogue fields of a drink, and the username of a client are not modelled, since no modelled operation reads them.
- `CreateTicket.CreateTicketController.AddTicketLine`: only drinks that are present can be added, because the product table never yields a null drink. A basket line without a drink would make the source's drink-id filter throw; the basket invariant rules such lines out.
