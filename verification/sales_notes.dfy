/**
  The covering-note text stored with each sales transaction: a subject line, a greeting, a
  summary, one numbered block per line item, fixed terms and a signature. JavaScript's
  number-to-text conversions are left abstract as a `Formats` value.
 */
module SalesNotes {
  import opened Wrappers
  import opened Text
  import opened Schema
  import opened SalesModel

  /**
    `String(x)` as a template literal writes a number, `x.toLocaleString()`, and a date's
    `String(d)`, for numbers and instants.
   */
  datatype Formats = Formats(plain: real -> string, locale: real -> string, date: int -> string)

  /** `${v}` for a field that may be `undefined`. */
  function Render(f: Formats, v: Option<Value>): (s: string)
    ensures v.None? ==> s == "undefined"
    ensures v.Some? && v.value.Str? ==> s == v.value.s
  {
    match v
    case None => "undefined"
    case Some(Str(t)) => t
    case Some(Num(n)) => f.plain(n)
    case Some(Bool(b)) => if b then "true" else "false"
    case Some(Time(t)) => f.date(t)
  }

  /** What the template reads from one line: the item's name and units, then the line's own figures. */
  datatype NoteItem = NoteItem(name: Option<Value>, units: Option<Value>, quantity: real, rate: real, amount: real, description: string)

  /** The summary fields of a note: the three parties, the total and the currency. */
  datatype NoteHead = NoteHead(company: Doc, debitParty: Doc, creditParty: Doc, total: real, currency: string)

  const Bullet: string := "\U{2022} "

  function SubjectLine(f: Formats, h: NoteHead): string
  {
    "Subject: Sales Transaction - " + Render(f, Get(h.company, "companyName")) + " to "
      + Render(f, Get(h.creditParty, "partyName"))
  }

  /**
    The template's fixed wording between the values it fills in: after the greeting's name up
    to the company's name, the labels of the debit party, the credit party and the total, the
    heading of the item list, and the terms that precede the signature.
   */
  datatype Wording = Wording(intro: string, debitLabel: string, creditLabel: string, totalLabel: string,
    itemsHeading: string, terms: string)

  /** The wording of `generateCoveringNotes`. */
  const SourceWording: Wording := Wording(
    ",\n\nWe are pleased to confirm the sales transaction details as follows:\n\n**Transaction Summary:**\n"
      + Bullet + "Company: ",
    "\n" + Bullet + "Debit Party: ",
    "\n" + Bullet + "Credit Party: ",
    "\n" + Bullet + "Total Amount: ",
    "\n\n**Items Included:**\n",
    "\n**Terms & Conditions:**\n"
      + Bullet + "Payment terms: As per agreed terms\n"
      + Bullet + "Delivery: As per agreed schedule\n"
      + Bullet + "Quality: As per specifications\n\n"
      + "Please confirm receipt of this transaction and contact us for any queries.\n\n")

  /** The greeting and the transaction summary, down to the heading of the item list. */
  function Summary(f: Formats, w: Wording, h: NoteHead): string
  {
    var credit := Render(f, Get(h.creditParty, "partyName"));
    "Dear " + credit + w.intro + Render(f, Get(h.company, "companyName"))
      + w.debitLabel + Render(f, Get(h.debitParty, "partyName"))
      + w.creditLabel + credit
      + w.totalLabel + h.currency + " " + f.locale(h.total)
      + w.itemsHeading
  }

  /** Everything before the first item block. */
  function Header(f: Formats, w: Wording, h: NoteHead): string
  {
    SubjectLine(f, h) + "\n\n" + Summary(f, w, h)
  }

  /** What follows the item's name on its line: quantity, units, rate and amount, and the line break. */
  function Figures(f: Formats, it: NoteItem, currency: string): string
  {
    f.plain(it.quantity) + " " + Render(f, it.units) + " @ " + currency + " " + f.plain(it.rate)
      + " = " + currency + " " + f.locale(it.amount) + "\n"
  }

  /** `${k}. <name> - Qty: <q> <units> @ <cur> <rate> = <cur> <amount>` and its line break. */
  function ItemLine(f: Formats, k: nat, it: NoteItem, currency: string): string
  {
    NatToString(k) + ". " + Render(f, it.name) + " - Qty: " + Figures(f, it, currency)
  }

  function DescriptionLine(d: string): string
  {
    "   Description: " + d + "\n"
  }

  /** The block of the `k`-th item (counting from 1): its line, and a description line when it has one. */
  function ItemBlock(f: Formats, k: nat, it: NoteItem, currency: string): string
  {
    ItemLine(f, k, it, currency) + (if it.description != "" then DescriptionLine(it.description) else "")
  }

  /** The blocks of `items`, the item at position `i` numbered `i + 1`. */
  function ItemBlocks(f: Formats, items: seq<NoteItem>, currency: string): (bs: seq<string>)
    ensures |bs| == |items|
    ensures forall i :: 0 <= i < |items| ==> bs[i] == ItemBlock(f, i + 1, items[i], currency)
  {
    seq(|items|, i requires 0 <= i < |items| => ItemBlock(f, i + 1, items[i], currency))
  }

  /** The texts one after another. */
  function Concat(parts: seq<string>): string
  {
    if parts == [] then "" else parts[0] + Concat(parts[1..])
  }

  function Signature(f: Formats, h: NoteHead): string
  {
    "Best regards,\n" + Render(f, Get(h.company, "companyName"))
  }

  /** Everything after the last item block: the terms and the signature. */
  function Footer(f: Formats, w: Wording, h: NoteHead): string
  {
    w.terms + Signature(f, h)
  }

  /** `generateCoveringNotes(...)`. */
  function CoveringNotes(f: Formats, w: Wording, h: NoteHead, items: seq<NoteItem>): string
  {
    Header(f, w, h) + Concat(ItemBlocks(f, items, h.currency)) + Footer(f, w, h)
  }

  // ---------------------------------------------------------------- what the template reads

  /**
    What the template reads from a stored line as written: `item.item` holds the item's id,
    so its `itemName` and `itemUnits` are `undefined`.
   */
  function NoteItemAsWritten(l: Line): (it: NoteItem)
    ensures it.name.None? && it.units.None?
    ensures it.quantity == l.quantity && it.rate == l.rate && it.amount == l.amount && it.description == l.description
  {
    NoteItem(None, None, l.quantity, l.rate, l.amount, l.description)
  }

  /** What the template evidently means to read: the name and units of the item record the line refers to. */
  function NoteItemOf(l: Line, item: Doc): (it: NoteItem)
    ensures it.name == Get(item, "itemName") && it.units == Get(item, "itemUnits")
    ensures it.quantity == l.quantity && it.rate == l.rate && it.amount == l.amount && it.description == l.description
  {
    NoteItem(Get(item, "itemName"), Get(item, "itemUnits"), l.quantity, l.rate, l.amount, l.description)
  }

  function NoteItemsAsWritten(lines: seq<Line>): (r: seq<NoteItem>)
    ensures |r| == |lines| && forall k :: 0 <= k < |lines| ==> r[k] == NoteItemAsWritten(lines[k])
  {
    seq(|lines|, k requires 0 <= k < |lines| => NoteItemAsWritten(lines[k]))
  }

  // ---------------------------------------------------------------- properties

  lemma {:induction false} PrefixOfAppend(a: string, b: string)
    ensures a <= a + b
  {
    assert (a + b)[..|a|] == a;
  }

  lemma {:induction false} SuffixOfAppend(a: string, b: string)
    ensures (a + b)[|a|..] == b
  {
  }

  /** The note opens with the subject line naming the company and the credit party, then a blank line. */
  lemma {:induction false} NotesOpenWithSubject(f: Formats, w: Wording, h: NoteHead, items: seq<NoteItem>)
    ensures SubjectLine(f, h) + "\n\n" <= CoveringNotes(f, w, h, items)
  {
    var s := SubjectLine(f, h) + "\n\n";
    var head := Header(f, w, h);
    var n := CoveringNotes(f, w, h, items);
    PrefixOfAppend(s, Summary(f, w, h));
    var body := Concat(ItemBlocks(f, items, h.currency));
    PrefixOfAppend(head, body);
    PrefixOfAppend(head + body, Footer(f, w, h));
  }

  /** A line followed by a line break is the first piece of any text it begins. */
  lemma {:induction false} FirstLineOf(line: string, text: string)
    requires line + "\n" <= text && '\n' !in line
    ensures Split(text, '\n')[0] == line
  {
    var rest := text[|line| + 1..];
    assert text == line + ['\n'] + rest;
    SplitAround(line, rest, '\n');
    SplitNoSeparator(line, '\n');
  }

  /** When the names carry no line break the subject is exactly the first line. */
  lemma {:induction false} SubjectIsFirstLine(f: Formats, w: Wording, h: NoteHead, items: seq<NoteItem>)
    requires '\n' !in SubjectLine(f, h)
    ensures Split(CoveringNotes(f, w, h, items), '\n')[0] == SubjectLine(f, h)
  {
    var subject := SubjectLine(f, h);
    var n := CoveringNotes(f, w, h, items);
    NotesOpenWithSubject(f, w, h, items);
    assert (subject + "\n\n")[..|subject| + 1] == subject + "\n";
    FirstLineOf(subject, n);
  }

  /** The note ends with the signature: "Best regards," and the company name on the last line. */
  lemma {:induction false} NotesEndWithSignature(f: Formats, w: Wording, h: NoteHead, items: seq<NoteItem>)
    ensures var n := CoveringNotes(f, w, h, items);
      var sign := "Best regards,\n" + Render(f, Get(h.company, "companyName"));
      |sign| <= |n| && n[|n| - |sign|..] == sign
  {
    var n := CoveringNotes(f, w, h, items);
    var sign := Signature(f, h);
    var body := Header(f, w, h) + Concat(ItemBlocks(f, items, h.currency));
    assert n == body + (w.terms + sign);
    assert body + (w.terms + sign) == (body + w.terms) + sign;
    SuffixOfAppend(body + w.terms, sign);
  }

  lemma {:induction false} ConcatAppend(a: seq<string>, b: seq<string>)
    ensures Concat(a + b) == Concat(a) + Concat(b)
  {
    if a == [] {
      assert a + b == b;
    } else {
      assert (a + b)[0] == a[0] && (a + b)[1..] == a[1..] + b;
      ConcatAppend(a[1..], b);
    }
  }

  /** The texts before position `i`, the text at `i`, and those after. */
  lemma {:induction false} ConcatAt(parts: seq<string>, i: nat)
    requires i < |parts|
    ensures Concat(parts) == Concat(parts[..i]) + parts[i] + Concat(parts[i + 1..])
  {
    var rest := parts[i..];
    assert parts == parts[..i] + rest;
    ConcatAppend(parts[..i], rest);
    assert rest[0] == parts[i] && rest[1..] == parts[i + 1..];
  }

  /**
    Every item has its block, numbered by its position from 1, after the blocks of the
    items before it and before the blocks of those after it.
   */
  lemma {:induction false} ItemBlockInPlace(f: Formats, w: Wording, h: NoteHead, items: seq<NoteItem>, i: nat)
    requires i < |items|
    ensures var bs := ItemBlocks(f, items, h.currency);
      CoveringNotes(f, w, h, items) ==
        Header(f, w, h) + Concat(bs[..i]) + ItemBlock(f, i + 1, items[i], h.currency) + Concat(bs[i + 1..]) + Footer(f, w, h)
  {
    var bs := ItemBlocks(f, items, h.currency);
    ConcatAt(bs, i);
    Regroup(Header(f, w, h), Concat(bs[..i]), bs[i], Concat(bs[i + 1..]), Footer(f, w, h));
  }

  lemma {:induction false} Regroup(a: string, b: string, c: string, d: string, e: string)
    ensures a + (b + c + d) + e == a + b + c + d + e
  {
  }

  /** A block has a description line exactly when the item's description is non-empty. */
  lemma {:induction false} DescriptionLineIff(f: Formats, k: nat, it: NoteItem, currency: string)
    ensures var line := ItemLine(f, k, it, currency);
      var block := ItemBlock(f, k, it, currency);
      line <= block && (it.description == "" <==> block == line)
        && (it.description != "" ==> block[|line|..] == "   Description: " + it.description + "\n")
  {
  }

  /** The line of an item is a prefix of its block. */
  lemma {:induction false} LineStartsBlock(f: Formats, k: nat, it: NoteItem, currency: string)
    ensures ItemLine(f, k, it, currency) <= ItemBlock(f, k, it, currency)
  {
    PrefixOfAppend(ItemLine(f, k, it, currency), if it.description != "" then DescriptionLine(it.description) else "");
  }

  /** The block of the `k`-th item opens with `k`, a full stop, the item's name and " - Qty: ". */
  lemma {:induction false} BlockStartsWithName(f: Formats, k: nat, it: NoteItem, currency: string)
    ensures NatToString(k) + ". " + Render(f, it.name) + " - Qty: " <= ItemBlock(f, k, it, currency)
  {
    var p := NatToString(k) + ". " + Render(f, it.name) + " - Qty: ";
    PrefixOfAppend(p, Figures(f, it, currency));
    LineStartsBlock(f, k, it, currency);
  }

  /**
    As written every block names the item "undefined": line `k` opens
    "k. undefined - Qty: ", whatever item the line refers to.
   */
  lemma {:induction false} AsWrittenNamesUndefined(f: Formats, k: nat, l: Line, currency: string)
    ensures NatToString(k) + ". " + "undefined" + " - Qty: " <= ItemBlock(f, k, NoteItemAsWritten(l), currency)
  {
    BlockStartsWithName(f, k, NoteItemAsWritten(l), currency);
  }

  /** As written, the notes name the item of every line `undefined`. */
  lemma {:induction false} AsWrittenNotesNameUndefined(f: Formats, w: Wording, h: NoteHead, lines: seq<Line>, i: nat)
    requires i < |lines|
    ensures Contains(CoveringNotes(f, w, h, NoteItemsAsWritten(lines)), NatToString(i + 1) + ". " + "undefined" + " - Qty: ")
  {
    var items := NoteItemsAsWritten(lines);
    var bs := ItemBlocks(f, items, h.currency);
    ItemBlockInPlace(f, w, h, items, i);
    AsWrittenNamesUndefined(f, i + 1, lines[i], h.currency);
    ContainsInPiece(Header(f, w, h) + Concat(bs[..i]), ItemBlock(f, i + 1, items[i], h.currency),
      Concat(bs[i + 1..]), Footer(f, w, h), NatToString(i + 1) + ". " + "undefined" + " - Qty: ");
  }

  /** Reading the item record, the block names the item as the record does. */
  lemma {:induction false} CorrectedNamesItem(f: Formats, k: nat, l: Line, item: Doc, currency: string)
    requires TextAt(item, "itemName").Some?
    ensures NatToString(k) + ". " + TextAt(item, "itemName").value + " - Qty: " <= ItemBlock(f, k, NoteItemOf(l, item), currency)
  {
    BlockStartsWithName(f, k, NoteItemOf(l, item), currency);
  }
}
