/** The records as the pages read them. Each page reads the field names it uses, and they are
    not the same everywhere: the Invoices page and the revenue chart read `dateIssued`, the
    Reports page reads `date_issued`; the Menus page reads `name`, the Reports page `Name`. Both
    spellings are kept. Dates are instants as integers; money is an integer amount. */
module Entities {
  import opened Wrappers
  import Lists

  datatype MenuItem = MenuItem(
    Id: int,
    name: string,
    Name: string,
    description: string,
    category: string,
    price: int)

  /** `notes` may be missing; `menu_items` is `None` when missing or not an array. */
  datatype Event = Event(
    Id: int,
    title: string,
    location: string,
    notes: Option<string>,
    status: string,
    date: int,
    menu_items: Option<seq<int>>)

  datatype Invoice = Invoice(
    Id: int,
    invoiceNumber: string,
    eventId: int,
    status: string,
    total: int,
    dateIssued: int,
    date_issued: int)

  function EventDate(e: Event): int {
    e.date
  }

  function InvoiceDateIssued(i: Invoice): int {
    i.dateIssued
  }

  function InvoiceTotal(i: Invoice): int {
    i.total
  }

  /** The order of a comparator `(a, b) => b - a`: larger first. */
  function AtLeast(a: int, b: int): bool {
    a >= b
  }

  lemma AtLeastTotalPreorder()
    ensures Lists.TotalPreorder(AtLeast)
  {
  }
}
