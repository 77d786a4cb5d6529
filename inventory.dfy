/**
 * Device records as the NetBox client hands them over, the custom-field
 * values they carry, and the ways in which a run can abort.
 */
module Inventory {
  import opened Wrappers

  /** A custom-field value or a report cell: a string, an integer, or Python's None. */
  datatype Value = Str(s: string) | Int(i: int) | Null

  /** Python truthiness of a value: a non-empty string or a non-zero integer. */
  predicate Truthy(v: Value) {
    match v
    case Str(s) => s != ""
    case Int(i) => i != 0
    case Null => false
  }

  /** `custom_fields.get(key)`: a key that is missing reads as None. */
  function Field(fields: map<string, Value>, key: string): Value {
    if key in fields then fields[key] else Null
  }

  /**
   * One device as read from the inventory. The strings are the `str()`
   * renderings of the client's objects, taken as opaque; `role` and
   * `manufacturer` are the names reached through `device_role` and
   * `device_type.manufacturer`, None when that reference is missing.
   */
  datatype Device = Device(
    name: string,
    status: string,
    site: string,
    rack: string,
    role: Option<string>,
    manufacturer: Option<string>,
    deviceType: string,
    serial: string,
    platform: string,
    primaryIp: string,
    customFields: map<string, Value>)

  /** Only a status rendered exactly as "Active" counts. */
  predicate IsActive(d: Device) {
    d.status == "Active"
  }

  /** The exceptions the model keeps: those that escape the export and write-back loops from the device data. */
  datatype Failure =
    | MissingRole                      // device_role is None: AttributeError
    | MissingManufacturer              // device_type.manufacturer is None: AttributeError
    | UnparsableBirthday(birthday: Value) // strptime raises ValueError or TypeError

  function DigitChar(n: nat): char
    requires n < 10
  {
    "0123456789"[n]
  }

  function Digits(n: nat): string
    decreases n
  {
    if n < 10 then [DigitChar(n)] else Digits(n / 10) + [DigitChar(n % 10)]
  }

  /** Python's `str()` of a value. */
  function PyStr(v: Value): string {
    match v
    case Str(s) => s
    case Int(i) => if i < 0 then "-" + Digits(-i) else Digits(i)
    case Null => "None"
  }
}
