/**
 * The settings page of the app: its loader reads a shop's alert settings,
 * creating them with defaults on first access, and its action decodes the
 * submitted form and upserts all three fields. The settings table the
 * object-relational mapper keeps is the map `table` of a `SettingsStore`.
 */
module AppIndex {
  import opened Wrappers
  import opened JsNumbers

  /** One shop's alert settings, with the column types of the settings table. */
  datatype Settings = Settings(orderThreshold: real, emailRecipient: string, isEnabled: bool)

  const DefaultSettings: Settings := Settings(100.0, "", true)

  type Table = map<string, Settings>

  /** The settings a shop has alerts configured with, if it has a record. */
  function Lookup(table: Table, shop: string): (r: Option<Settings>)
    ensures r.Some? <==> shop in table
    ensures r.Some? ==> r.value == table[shop]
  {
    if shop in table then Some(table[shop]) else None
  }

  /**
   * What the loader does to the table: a shop's existing record is returned and
   * nothing is written; a shop without one gets a record with the defaults.
   */
  function GetOrCreate(table: Table, shop: string): (result: (Table, Settings))
    ensures shop in result.0 && result.0[shop] == result.1
    ensures forall k :: k != shop ==> (k in result.0 <==> k in table)
    ensures forall k :: k != shop && k in table ==> result.0[k] == table[k]
    ensures shop in table ==> result.0 == table
    ensures shop !in table ==> result.1 == DefaultSettings
  {
    if shop in table then (table, table[shop]) else (table[shop := DefaultSettings], DefaultSettings)
  }

  // ---------------------------------------------------------------- the form

  /** The submitted form: each field's first value (`FormData.get`). */
  type FormData = map<string, string>

  /** The action's decoded values, as JavaScript values before they reach the table. */
  datatype FormValues = FormValues(orderThreshold: Number, emailRecipient: Option<string>, isEnabled: bool)

  function FormGet(form: FormData, key: string): Option<string> {
    if key in form then Some(form[key]) else None
  }

  /** `parseFloat` of the threshold field, the recipient field as is, and the checkbox as `=== "on"`. */
  function DecodeForm(form: FormData): (v: FormValues)
    ensures v.isEnabled <==> "isEnabled" in form && form["isEnabled"] == "on"
    ensures "isEnabled" !in form ==> !v.isEnabled
    ensures "orderThreshold" !in form ==> v.orderThreshold == NaN
    ensures "orderThreshold" in form ==> v.orderThreshold == ParseFloat(form["orderThreshold"])
    ensures v.emailRecipient.Some? <==> "emailRecipient" in form
    ensures "emailRecipient" in form ==> v.emailRecipient.value == form["emailRecipient"]
  {
    FormValues(
      ParseFloatOf(FormGet(form, "orderThreshold")),
      FormGet(form, "emailRecipient"),
      FormGet(form, "isEnabled") == Some("on"))
  }

  /**
   * The record a write stores. The table holds a finite threshold and a string
   * recipient, so for NaN or an infinite threshold, or a missing recipient,
   * there is no record: the upsert throws instead.
   */
  function ToRecord(v: FormValues): (r: Option<Settings>)
    ensures r.Some? <==> v.orderThreshold.Finite? && v.emailRecipient.Some?
    ensures r.Some? ==> r.value == Settings(v.orderThreshold.value, v.emailRecipient.value, v.isEnabled)
  {
    if v.orderThreshold.Finite? && v.emailRecipient.Some? then
      Some(Settings(v.orderThreshold.value, v.emailRecipient.value, v.isEnabled))
    else None
  }

  /** The action's outcome: the redirect after a write, or the upsert's error escaping with nothing stored. */
  datatype SaveReply = Redirect(location: string) | UpsertThrows

  // ---------------------------------------------------------------- the page's form

  /**
   * What the page's form submits. A ticked checkbox sends `on` and an unticked
   * one sends nothing; the two text fields are disabled while the box is
   * unticked, and a disabled field is not submitted.
   */
  function PageForm(enabled: bool, threshold: string, recipient: string): FormData {
    if enabled then map["orderThreshold" := threshold, "emailRecipient" := recipient, "isEnabled" := "on"]
    else map[]
  }

  /** The form with the box ticked stores what the fields hold, with alerts on. */
  lemma TickedFormIsStored(threshold: string, recipient: string)
    requires ParseFloat(threshold).Finite?
    ensures ToRecord(DecodeForm(PageForm(true, threshold, recipient)))
         == Some(Settings(ParseFloat(threshold).value, recipient, true))
  {
  }

  /** The form with the box unticked carries no threshold and no recipient, so it is never stored. */
  lemma UntickedFormIsNotStored(threshold: string, recipient: string)
    ensures ToRecord(DecodeForm(PageForm(false, threshold, recipient))) == None
  {
  }

  /** Hence no form the page submits stores alerts switched off. */
  lemma PageNeverStoresAlertsOff(enabled: bool, threshold: string, recipient: string)
    ensures var record := ToRecord(DecodeForm(PageForm(enabled, threshold, recipient)));
      record.Some? ==> record.value.isEnabled
  {
  }

  /**
   * The form the page evidently means to submit, given that its save button
   * stays enabled for an unticked box with both fields filled in: both fields
   * always, and the checkbox when ticked.
   */
  function IntendedPageForm(enabled: bool, threshold: string, recipient: string): FormData {
    var fields := map["orderThreshold" := threshold, "emailRecipient" := recipient];
    if enabled then fields["isEnabled" := "on"] else fields
  }

  /** With that form, a finite threshold is stored together with the checkbox as ticked or not. */
  lemma IntendedFormStoresSwitch(enabled: bool, threshold: string, recipient: string)
    requires ParseFloat(threshold).Finite?
    ensures ToRecord(DecodeForm(IntendedPageForm(enabled, threshold, recipient)))
         == Some(Settings(ParseFloat(threshold).value, recipient, enabled))
  {
  }

  // ---------------------------------------------------------------- the table

  class SettingsStore {
    var table: Table

    constructor ()
      ensures table == map[]
    {
      table := map[];
    }

    /** `findUnique` by shop. */
    method FindUnique(shop: string) returns (found: Option<Settings>)
      ensures found.Some? <==> shop in table
      ensures found.Some? ==> found.value == table[shop]
    {
      found := if shop in table then Some(table[shop]) else None;
    }

    /** `upsert` by shop: the record is created or all three fields overwritten. */
    method Upsert(shop: string, record: Settings)
      modifies this
      ensures table == old(table)[shop := record]
    {
      table := table[shop := record];
    }

    /** The loader: get the shop's settings, creating them with the defaults when there are none. */
    method Load(shop: string) returns (settings: Settings)
      modifies this
      ensures (table, settings) == GetOrCreate(old(table), shop)
    {
      var found := FindUnique(shop);
      if found.None? {
        table := table[shop := DefaultSettings];
        settings := DefaultSettings;
      } else {
        settings := found.value;
      }
    }

    /** The action: decode the form and upsert all three fields, then redirect back to the page. */
    method Save(shop: string, form: FormData) returns (reply: SaveReply)
      modifies this
      ensures var record := ToRecord(DecodeForm(form));
        && (record.Some? ==> reply == Redirect("/app") && table == old(table)[shop := record.value])
        && (record.None? ==> reply == UpsertThrows && table == old(table))
    {
      var values := DecodeForm(form);
      var record := ToRecord(values);
      if record.None? {
        reply := UpsertThrows;
        return;
      }
      Upsert(shop, record.value);
      reply := Redirect("/app");
    }
  }

  // ---------------------------------------------------------------- properties

  /** Loading twice gives the same record and the same table as loading once. */
  lemma GetOrCreateIdempotent(table: Table, shop: string)
    ensures var (t1, s1) := GetOrCreate(table, shop);
      GetOrCreate(t1, shop) == (t1, s1)
  {
  }

  /** A load after a save returns the saved record and writes nothing. */
  lemma LoadAfterSave(table: Table, shop: string, record: Settings)
    ensures GetOrCreate(table[shop := record], shop) == (table[shop := record], record)
  {
  }

  /** A save for one shop leaves every other shop's record as it was. */
  lemma SaveKeepsOtherShops(table: Table, shop: string, record: Settings, other: string)
    requires other != shop
    ensures Lookup(table[shop := record], other) == Lookup(table, other)
  {
  }

  /** A form whose threshold parses to a finite value and that has a recipient is stored field for field. */
  lemma SavedFormIsStored(form: FormData)
    requires "emailRecipient" in form && "orderThreshold" in form
    requires ParseFloat(form["orderThreshold"]).Finite?
    ensures ToRecord(DecodeForm(form))
         == Some(Settings(ParseFloat(form["orderThreshold"]).value, form["emailRecipient"], FormGet(form, "isEnabled") == Some("on")))
  {
  }
}
