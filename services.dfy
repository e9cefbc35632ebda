/** The service catalogue the booking and payment forms consult. The
    catalogue's contents are data; here it is a map from service code to
    definition that every operation receives as a parameter. */
module Services {
  import opened Common

  /** One catalogue entry. `category` is "" when the entry names none,
      `requiresClassId` is None when the entry leaves it unset,
      `defaultDuration` is 0 when the entry has no default duration. */
  datatype ServiceDef = ServiceDef(
    code: string,
    name: string,
    category: string,
    requiresClassId: Option<bool>,
    defaultFullPrice: Option<real>,
    defaultDuration: int)

  type Catalog = map<string, ServiceDef>

  /** The select value meaning "a service outside the catalogue". */
  const CUSTOM_SERVICE_CODE: string := "__custom__"
  /** The select value meaning "nothing chosen yet". */
  const NO_SERVICE_SELECTED: string := "__select__"

  /** The service types a form can hold. */
  const ROOM: string := "room"
  const EQUIPMENT: string := "equipment"
  const CLASS: string := "class"
  const SERVICE: string := "service"

  /** `findServiceByCode`: the entry filed under `code`, if any. */
  function FindServiceByCode(cat: Catalog, code: string): (d: Option<ServiceDef>)
    ensures d.Some? <==> code in cat
    ensures d.Some? ==> d.value == cat[code]
  {
    if code in cat then Some(cat[code]) else None
  }

  /** `getServiceCategory`: the category of the entry filed under `code`, "" when there is none. */
  function ServiceCategory(cat: Catalog, code: string): (c: string)
    ensures code !in cat ==> c == ""
    ensures code in cat ==> c == cat[code].category
  {
    if code in cat then cat[code].category else ""
  }

  /** The entry's category when it has one, else the fallback. */
  function CategoryOr(def: Option<ServiceDef>, fallback: string): (t: string)
    ensures def.Some? && def.value.category != "" ==> t == def.value.category
    ensures def.None? || def.value.category == "" ==> t == fallback
  {
    if def.Some? && def.value.category != "" then def.value.category else fallback
  }

  /** The code a payload carries: the catalogue entry's code, or none. */
  function PayloadServiceCode(def: Option<ServiceDef>): (c: Option<string>)
    ensures c.Some? <==> def.Some? && def.value.code != ""
    ensures c.Some? ==> c.value == def.value.code
  {
    if def.Some? && def.value.code != "" then Some(def.value.code) else None
  }
}
