/** `send_rfp_email`: refuse to run without SMTP credentials, build the subject
    and the plain-text body from the RFP dictionary, and hand the message to the
    transport. The transport (`aiosmtplib.send`) is a parameter that returns
    `None` on delivery or the message of the exception it raised. */
module EmailService {
  import opened Common
  import opened Records

  /** The environment the module reads at import time. */
  datatype SmtpConfig = SmtpConfig(host: string, port: int, user: Option<string>, password: Option<string>)

  /** The `rfp_data` dictionary a caller passes in. */
  datatype RfpData = RfpData(
    title: Slot<string>,
    description: Slot<string>,
    budget: Slot<Money>,
    deliveryDays: Slot<int>,
    paymentTerms: Slot<string>,
    warrantyRequired: Slot<string>,
    items: Slot<seq<Item>>,
    requirements: Slot<seq<string>>)

  /** The plain-text part of the message; the HTML part is not part of this model. */
  datatype Email = Email(subject: string, sender: string, recipient: string, text: string)

  // ---------------------------------------------------------------------------
  // Python truthiness and `str()` of the values involved
  // ---------------------------------------------------------------------------

  /** `str(x)` for an optional string: `None` prints as "None". */
  function PyStr(x: Option<string>): string
  {
    if x.Some? then x.value else "None"
  }

  /** `d.get(key, default)` interpolated into an f-string. */
  function SlotText(x: Slot<string>, default: string): (s: string)
    ensures x.Absent? ==> s == default
    ensures x == Present(None) ==> s == "None"
  {
    PyStr(x.GetOr(default))
  }

  predicate TruthyString(x: Slot<string>)
  {
    x.Present? && x.entry.Some? && x.entry.value != ""
  }

  predicate TruthyInt(x: Slot<int>)
  {
    x.Present? && x.entry.Some? && x.entry.value != 0
  }

  /** `if not SMTP_USER or not SMTP_PASSWORD`: a missing or empty value fails. */
  predicate Configured(c: SmtpConfig)
  {
    c.user.Some? && c.user.value != "" && c.password.Some? && c.password.value != ""
  }

  const CredentialsError := "SMTP credentials not configured"
  const SendPrefix := "Failed to send email: "
  const SubjectPrefix := "Request for Proposal: "

  function Subject(data: RfpData): (s: string)
    ensures StartsWith(s, SubjectPrefix)
    ensures data.title.Absent? ==> s == SubjectPrefix + "RFP"
    ensures data.title.Present? && data.title.entry.Some? ==> s == SubjectPrefix + data.title.entry.value
  {
    SubjectPrefix + SlotText(data.title, "RFP")
  }

  // ---------------------------------------------------------------------------
  // The text body, section by section
  // ---------------------------------------------------------------------------

  function Greeting(vendorName: Option<string>): string
  {
    "\nDear " + PyStr(vendorName) + ","
  }

  function Intro(data: RfpData): string
  {
    "\n\nWe are requesting a proposal for the following procurement:\n\n"
    + "Title: " + SlotText(data.title, "N/A") + "\n"
    + "Description: " + SlotText(data.description, "N/A") + "\n"
  }

  /** The opening f-string: greeting, title and description. */
  function Header(vendorName: Option<string>, data: RfpData): string
  {
    Greeting(vendorName) + Intro(data)
  }

  function BudgetLine(data: RfpData): string
  {
    if data.budget.Present? && data.budget.entry.Some? && data.budget.entry.value != 0
    then "Budget: $" + PythonMoney(data.budget.entry.value) + "\n" else ""
  }

  function DeliveryLine(data: RfpData): string
  {
    if TruthyInt(data.deliveryDays)
    then "Delivery Required: " + IntToString(data.deliveryDays.entry.value) + " days\n" else ""
  }

  function PaymentLine(data: RfpData): string
  {
    if TruthyString(data.paymentTerms) then "Payment Terms Required: " + data.paymentTerms.entry.value + "\n" else ""
  }

  function WarrantyLine(data: RfpData): string
  {
    if TruthyString(data.warrantyRequired) then "Warranty Required: " + data.warrantyRequired.entry.value + "\n" else ""
  }

  /** `", ".join(f"{k}: {v}" for k, v in specs.items())`. */
  function SpecsText(specs: seq<(string, string)>): string
  {
    if specs == [] then ""
    else if |specs| == 1 then specs[0].0 + ": " + specs[0].1
    else specs[0].0 + ": " + specs[0].1 + ", " + SpecsText(specs[1..])
  }

  function ItemLine(item: Item): (line: string)
    ensures StartsWith(line, "- ") && EndsWith(line, "\n")
  {
    var line := "- " + SlotText(item.name, "N/A")
      + (if item.quantity.Some? && item.quantity.value != 0
         then " (Quantity: " + IntToString(item.quantity.value) + ")" else "")
      + (if item.specifications != [] then " - " + SpecsText(item.specifications) else "")
      + "\n";
    assert line[..2] == "- ";
    line
  }

  function ItemLines(items: seq<Item>): string
  {
    if items == [] then "" else ItemLines(items[..|items| - 1]) + ItemLine(items[|items| - 1])
  }

  function RequirementLines(reqs: seq<string>): string
  {
    if reqs == [] then "" else RequirementLines(reqs[..|reqs| - 1]) + "- " + reqs[|reqs| - 1] + "\n"
  }

  function ItemsOf(data: RfpData): seq<Item>
  {
    if data.items.Present? && data.items.entry.Some? then data.items.entry.value else []
  }

  function RequirementsOf(data: RfpData): seq<string>
  {
    if data.requirements.Present? && data.requirements.entry.Some? then data.requirements.entry.value else []
  }

  function ItemsSection(data: RfpData): string
  {
    if ItemsOf(data) != [] then "\nItems Required:\n" + ItemLines(ItemsOf(data)) else ""
  }

  function RequirementsSection(data: RfpData): string
  {
    if RequirementsOf(data) != [] then "\nAdditional Requirements:\n" + RequirementLines(RequirementsOf(data)) else ""
  }

  const Instructions :=
    "\n\nPlease reply to this email with your proposal including:\n"
    + "- Total price\n- Delivery timeline\n- Payment terms\n- Warranty information\n"
    + "- Itemized pricing (if applicable)\n- Any terms and conditions\n\n"
    + "Thank you for your interest.\n\n"

  const Signature := "Best regards,\nProcurement Team"

  /** The whole plain-text body: the Budget, Delivery, Payment Terms and Warranty
      lines, each present only when its value is truthy, always in that order,
      then the items, the requirements and the closing. */
  function TextBody(vendorName: Option<string>, data: RfpData): string
  {
    Header(vendorName, data) + BudgetLine(data) + DeliveryLine(data) + PaymentLine(data) + WarrantyLine(data)
    + ItemsSection(data) + RequirementsSection(data) + Instructions + Signature
  }

  /** The items and requirements sections are there exactly when their lists
      are non-empty. */
  lemma SectionsPresent(data: RfpData)
    ensures ItemsSection(data) == "" <==> ItemsOf(data) == []
    ensures RequirementsSection(data) == "" <==> RequirementsOf(data) == []
  {
  }

  /** The body always opens with the greeting and ends with the signature. */
  lemma TextBodyShape(vendorName: Option<string>, data: RfpData)
    ensures StartsWith(TextBody(vendorName, data), Greeting(vendorName))
    ensures EndsWith(TextBody(vendorName, data), Signature)
  {
    var g := Greeting(vendorName);
    var s0 := Header(vendorName, data);
    PrefixOfAppend(g, Intro(data));
    var s1 := s0 + BudgetLine(data);
    KeepsPrefix(s0, BudgetLine(data), g);
    var s2 := s1 + DeliveryLine(data);
    KeepsPrefix(s1, DeliveryLine(data), g);
    var s3 := s2 + PaymentLine(data);
    KeepsPrefix(s2, PaymentLine(data), g);
    var s4 := s3 + WarrantyLine(data);
    KeepsPrefix(s3, WarrantyLine(data), g);
    var s5 := s4 + ItemsSection(data);
    KeepsPrefix(s4, ItemsSection(data), g);
    var s6 := s5 + RequirementsSection(data);
    KeepsPrefix(s5, RequirementsSection(data), g);
    var s7 := s6 + Instructions;
    KeepsPrefix(s6, Instructions, g);
    KeepsPrefix(s7, Signature, g);
    SuffixOfAppend(s7, Signature);
  }

  // ---------------------------------------------------------------------------
  // Building and sending
  // ---------------------------------------------------------------------------

  /** The `+=` sequence that builds `text_body`. */
  method BuildTextBody(vendorName: Option<string>, data: RfpData) returns (body: string)
    ensures body == TextBody(vendorName, data)
  {
    body := AppendDetailLines(Header(vendorName, data), data);
    body := AppendItemsSection(body, data);
    body := AppendRequirementsSection(body, data);
    body := body + Instructions + Signature;
  }

  /** `if rfp_data.get('items'):` and its loop. */
  method AppendItemsSection(prefix: string, data: RfpData) returns (body: string)
    ensures body == prefix + ItemsSection(data)
  {
    var items := ItemsOf(data);
    if items != [] {
      var heading := "\nItems Required:\n";
      body := AppendItemLines(prefix + heading, items);
      assert body == prefix + (heading + ItemLines(items));
    } else {
      body := prefix;
      assert ItemsSection(data) == [];
    }
  }

  /** `if rfp_data.get('requirements'):` and its loop. */
  method AppendRequirementsSection(prefix: string, data: RfpData) returns (body: string)
    ensures body == prefix + RequirementsSection(data)
  {
    var reqs := RequirementsOf(data);
    if reqs != [] {
      var heading := "\nAdditional Requirements:\n";
      body := AppendRequirementLines(prefix + heading, reqs);
      assert body == prefix + (heading + RequirementLines(reqs));
    } else {
      body := prefix;
      assert RequirementsSection(data) == [];
    }
  }

  /** The four `if rfp_data.get(...)` blocks. */
  method AppendDetailLines(prefix: string, data: RfpData) returns (body: string)
    ensures body == prefix + BudgetLine(data) + DeliveryLine(data) + PaymentLine(data) + WarrantyLine(data)
  {
    body := prefix;
    if data.budget.Present? && data.budget.entry.Some? && data.budget.entry.value != 0 {
      body := body + BudgetLine(data);
    } else {
      assert body == prefix + BudgetLine(data);
    }
    ghost var b1 := body;
    if TruthyInt(data.deliveryDays) {
      body := body + DeliveryLine(data);
    } else {
      assert body == b1 + DeliveryLine(data);
    }
    ghost var b2 := body;
    if TruthyString(data.paymentTerms) {
      body := body + PaymentLine(data);
    } else {
      assert body == b2 + PaymentLine(data);
    }
    ghost var b3 := body;
    if TruthyString(data.warrantyRequired) {
      body := body + WarrantyLine(data);
    } else {
      assert body == b3 + WarrantyLine(data);
    }
  }

  /** `for item in items: text_body += ...`: one line per item, in order. */
  method AppendItemLines(prefix: string, items: seq<Item>) returns (body: string)
    ensures body == prefix + ItemLines(items)
  {
    body := prefix;
    for i := 0 to |items|
      invariant body == prefix + ItemLines(items[..i])
    {
      var line := ItemLine(items[i]);
      ItemLinesSnoc(items, i, prefix, body, line);
      body := body + line;
    }
    assert items[..|items|] == items;
  }

  lemma ItemLinesSnoc(items: seq<Item>, i: nat, prefix: string, body: string, line: string)
    requires i < |items| && line == ItemLine(items[i])
    requires body == prefix + ItemLines(items[..i])
    ensures body + line == prefix + ItemLines(items[..i + 1])
  {
    ItemLinesLast(items, i);
    AppendAssoc(prefix, ItemLines(items[..i]), line);
  }

  lemma ItemLinesLast(items: seq<Item>, i: nat)
    requires i < |items|
    ensures ItemLines(items[..i + 1]) == ItemLines(items[..i]) + ItemLine(items[i])
  {
    assert items[..i + 1][..i] == items[..i];
  }

  lemma AppendAssoc(a: string, b: string, c: string)
    ensures (a + b) + c == a + (b + c)
  {
  }

  /** `for req in requirements: text_body += f"- {req}\n"`. */
  method AppendRequirementLines(prefix: string, reqs: seq<string>) returns (body: string)
    ensures body == prefix + RequirementLines(reqs)
  {
    body := prefix;
    for i := 0 to |reqs|
      invariant body == prefix + RequirementLines(reqs[..i])
    {
      assert reqs[..i + 1][..i] == reqs[..i];
      body := body + "- " + reqs[i] + "\n";
    }
    assert reqs[..|reqs|] == reqs;
  }

  /** The message handed to the transport. */
  method BuildMessage(config: SmtpConfig, toEmail: string, vendorName: Option<string>, data: RfpData)
    returns (m: Email)
    requires Configured(config)
    ensures m == Email(Subject(data), config.user.value, toEmail, TextBody(vendorName, data))
  {
    var text := BuildTextBody(vendorName, data);
    m := Email(Subject(data), config.user.value, toEmail, text);
  }

  /** What `send_rfp_email` ends in: `Ok` once the transport accepted the
      message; otherwise the credential error (raised before any message exists)
      or the transport's error behind "Failed to send email: ". */
  function EmailOutcome(config: SmtpConfig, toEmail: string, vendorName: Option<string>, data: RfpData,
                        transport: Email -> Option<string>): (r: Result<(), string>)
  {
    if !Configured(config) then Err(CredentialsError)
    else
      var failure := transport(Email(Subject(data), config.user.value, toEmail, TextBody(vendorName, data)));
      if failure.None? then Ok(()) else Err(SendPrefix + failure.value)
  }

  /** Without credentials the outcome is the credential error, raised before any
      message exists. With them it is decided by what the transport does with
      the one message built from the RFP: accepted is `Ok`, refused is the
      transport's error behind the fixed prefix. */
  lemma EmailOutcomeCases(config: SmtpConfig, toEmail: string, vendorName: Option<string>, data: RfpData,
                          transport: Email -> Option<string>)
    ensures !Configured(config) ==> EmailOutcome(config, toEmail, vendorName, data, transport) == Err(CredentialsError)
    ensures Configured(config) ==>
      var m := Email(Subject(data), config.user.value, toEmail, TextBody(vendorName, data));
      var r := EmailOutcome(config, toEmail, vendorName, data, transport);
      && (r.Ok? <==> transport(m).None?)
      && (r.Err? ==> r.error == SendPrefix + transport(m).value)
    ensures var r := EmailOutcome(config, toEmail, vendorName, data, transport);
      r.Err? ==> r.error == CredentialsError || StartsWith(r.error, SendPrefix)
  {
  }

  /** The coroutine itself: the message is built step by step and then sent. */
  method SendRfpEmail(config: SmtpConfig, toEmail: string, vendorName: Option<string>, data: RfpData,
                      transport: Email -> Option<string>)
    returns (r: Result<(), string>)
    ensures r == EmailOutcome(config, toEmail, vendorName, data, transport)
  {
    if !Configured(config) {
      return Err(CredentialsError);
    }
    var m := BuildMessage(config, toEmail, vendorName, data);
    var failure := transport(m);
    if failure.None? {
      r := Ok(());
    } else {
      r := Err(SendPrefix + failure.value);
    }
  }
}
