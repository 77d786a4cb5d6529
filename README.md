# NetBox device export and age write-back, modelled in Dafny

This project models the data-handling core of `netbox_api.py`, a script that reads the device list from a NetBox inventory and does one of two jobs:

- **Export** (`get_devices`): it keeps the devices whose status is exactly `Active` and turns each one into a row of 17 named cells. After every device in the list, Active or not, it appends the whole list of rows gathered so far to `output.csv`. At the end it saves the rows to the worksheet `output.xlsx`, with each column sized to its longest text.
- **Write-back** (`update_age`): for every Active device with a truthy `Birthday` custom field, it stores the device's age in whole months in the `age` custom field.

The modules follow the parts of the script:

| file | module | models |
|---|---|---|
| `wrappers.dfy` | `Wrappers` | `Option` and `Result`, for Python's `None` and for exceptions |
| `inventory.dfy` | `Inventory` | custom-field values (`Str`, `Int`, `Null`), Python truthiness, `custom_fields.get`, the device record, the `Active` test, the exceptions that stop a run, and `str()` of a value |
| `age.dfy` | `Age` | `calculate_age_in_months` |
| `report.dfy` | `Report` | the column names, the `headers` list, the projection `[device.get(header, '') for header in headers]`, and `csv_to_xlsx` |
| `export.dfy` | `Export` | the row built per device, the loop of `get_devices`, and the append-only CSV file |
| `writeback.dfy` | `WriteBack` | `update_age` over the client's device objects |

How the model represents the script:

- **Clock and date parser.** `datetime.today()` becomes a `today: Date` parameter. `datetime.strptime(_, '%Y-%m-%d')` becomes a `parse: string -> Option<Date>` parameter, which returns `None` where strptime raises. A `Birthday` that is a truthy integer fails like an unparsable string, because strptime raises `TypeError` on it.
- **Device records.** A device is the `Device` datatype. Its strings are the `str()` renderings of the client's objects, taken as given. Role and manufacturer are `Option<string>`, with `None` for a missing reference. Custom fields are a `map<string, Value>`, and a missing key reads as `Null`.
- **Device rows.** A row is a `map<ColumnName, Value>`. `ColumnName` lists the 18 column names the script uses as row keys or headers, and `Label` gives each one's spelling. `Report.LabelsDistinct` shows that no two names share a spelling, so a lookup by column name is a lookup by the script's string. The software field is stored under `SW` ("SW"), but the header is `Software` ("Software"), so that column always falls back to `''`. Custom-field names stay strings, because NetBox may hold any key there.
- **Exceptions.** For an Active device, a missing role or a missing manufacturer raises inside `get_devices`, and so does a truthy Birthday that cannot be parsed when the device's `age` is None. A falsy Birthday (`''`, `0`, None) is never parsed, and the Age cell is then None. Inactive devices are never examined. The exception reaches the catch-all in `main`, so the run stops at once. The model returns `Err`. The CSV rows appended before the failing device stay in the file, and no workbook is written.
- **The CSV file and the workbook.** `output.csv` is the class `Export.CsvFile`, whose `lines: seq<seq<Value>>` only ever grows. The saved worksheet is the value `Report.Sheet`, which holds the rows and one width per column.
- **`update_age`.** The client's device objects are instances of the class `WriteBack.RemoteDevice`, and `update_age` changes their `record` in place. A list may contain the same object twice. Writing an age back is idempotent, so the model proves the result for that case as well.

## Model

| member | source | states |
|---|---|---|
| `Age.AgeIsMonthDistance` | netbox_api.py:140-144 | The age is the number of calendar months from the birth month to today's month. |
| `Age.AgeIgnoresDay` | netbox_api.py:143 | The day of the month, of today or of the birthday, never changes the age. |
| `Age.AgeZeroIffSameMonth` | netbox_api.py:143 | The age is 0 exactly when the birthday falls in today's year and month. |
| `Age.AgeNegativeIffFutureBirthday` | netbox_api.py:143 | The age is negative exactly when the birth month is after today's month: there is no clamping. |
| `Age.AgeAfterMonths` | netbox_api.py:140-144 | Moving today forward by k calendar months adds exactly k to the age, across year boundaries. |
| `Age.AgeExamples` | netbox_api.py:140-144 | Worked cases: 15 Jan 2020 to 1 Mar 2020 is 2, 31 Jan 2020 to 1 Feb 2020 is 1, and 1 Jun 2019 to 15 Jun 2024 is 60. |
| `Report.LabelsDistinct` | netbox_api.py:138-204 | Two column names are spelled the same exactly when they are the same column, so the row keys and headers can be compared by name. |
| `Report.SheetRows` | netbox_api.py:150-152 | Every worksheet row has one cell per header. |
| `Report.AppendRows` | netbox_api.py:150-152 | The appended rows are the header row, then one projected row per device, in order. |
| `Report.LongestString` | netbox_api.py:155-162 | The running maximum over a column is the length of its longest string cell. An int or None cell makes `len()` raise, and the bare except skips it. |
| `Report.SizeColumns` | netbox_api.py:154-164 | Each column's width is 2 plus the longest string in that column. |
| `Report.CsvToXlsx` | netbox_api.py:146-164 | The saved sheet is exactly the specified workbook for the given rows: its rows and its column widths. |
| `Report.MaxStringLengthIsLongest` | netbox_api.py:155-163 | The maximum bounds every string cell. Unless it is 0, it equals the length of one of them. |
| `Report.NonStringCellsIgnored` | netbox_api.py:158-162 | Int and None cells never raise the maximum: it equals the maximum over the string cells alone. |
| `Report.ColumnWidthIsLongestString` | netbox_api.py:154-164 | Every string cell fits within its column's width minus 2. The width is either 2 or the length of some string cell plus 2. |
| `Report.WorkbookRows` | netbox_api.py:150-152 | The sheet has 1 header row plus one row per kept device, each projected by header, and 17 column widths. |
| `Report.WorkbookWidths` | netbox_api.py:150-164 | Each column is 2 wider than its longest string cell, header included. So it is at least the header's length plus 2, and some cell reaches it. |
| `Export.DeviceRow` | netbox_api.py:184-204 | The row has exactly the 17 keys the script assigns, with `"SW"` in place of `"Software"`. |
| `Export.Normalize` | netbox_api.py:183-204 | A missing role raises first, then a missing manufacturer. If the `age` field is not None, it is reported as it is. Otherwise a truthy Birthday gives the computed age, or raises if it cannot be parsed. Otherwise the age is None. |
| `Export.MissingCustomFieldsAreNone` | netbox_api.py:191-203 | Owner, Service Contract, Warranty and SW_Version are None when the device lacks that custom field. A device with neither `age` nor Birthday still yields a row, with None in both cells. |
| `Export.NormalizeClockFree` | netbox_api.py:183-197 | Whether a device's row raises, and with which exception, is the same on every date. |
| `Export.SoftwareColumnEmpty` | netbox_api.py:202-215 | The `Software` header (netbox_api.py:138) is never a row key, so its cell is always `''`. Every other header is a row key. |
| `Export.RunOneMore` | netbox_api.py:180-215 | Handling one more device is one more step of the loop. |
| `Export.FailureIsFinal` | netbox_api.py:188-195 | Once an exception has stopped the run, the rest of the list changes nothing. |
| `Export.RunKeepsActiveRows` | netbox_api.py:179-206 | The run completes exactly when every Active device yields a row. Then `devices_data` holds one row per Active device, in list order, and nothing for other devices. |
| `Export.RunStopsAtFirstFailure` | netbox_api.py:188-195 | A run that stops does so at the first Active device whose row raises, with that device's exception. |
| `Export.RunAppendCount` | netbox_api.py:180-215 | A completed run appends, summed over k, the number of Active devices among the first k devices. |
| `Export.AllActiveAppendsTriangle` | netbox_api.py:180-215 | With n devices, all Active, one run appends n(n+1)/2 rows. |
| `Export.AppendedAtEachStep` | netbox_api.py:212-215 | The rows appended while handling device k are exactly `devices_data` as it stands after device k. |
| `Export.RunShapeClockFree` | netbox_api.py:180-215 | On any two dates, a run over the same list stops alike, keeps as many rows and appends as many rows. |
| `Export.ProjectAllLayout` | netbox_api.py:215 | Each projected row has 17 cells, and its Software cell is `''`. |
| `Export.RunKeptRows` | netbox_api.py:183-206 | Every kept row has the 17 row keys, and its Status is `Active`. |
| `Export.RunAppendedLayout` | netbox_api.py:212-215 | Every row appended to the CSV has 17 cells in header order, with the Software cell `''`. |
| `Export.WorkbookSoftwareEmpty` | netbox_api.py:150-152 | Every device row of the saved workbook has `''` in its Software column, because the rows are keyed `SW` (netbox_api.py:202). |
| `Export.WorkbookHasActiveRows` | netbox_api.py:150-206 | A completed export saves a sheet with 1 header row plus exactly one row per Active device. |
| `Export.CsvFile.WriteRow` | netbox_api.py:215 | Writing a row adds it at the end of the file and changes nothing else. |
| `Export.WriteRows` | netbox_api.py:212-215 | The append block adds one projected row per entry of `devices_data`, in order. |
| `Export.HandleDevice` | netbox_api.py:180-215 | One loop turn does exactly one step: it keeps or skips the device (or raises), then re-appends all of `devices_data`. |
| `Export.ExportLoop` | netbox_api.py:180-215 | After the loop, the file is its old contents followed by exactly the rows the run appends. The loop ends with the run's exception, or with the run's `devices_data`. |
| `Export.GetDevices` | netbox_api.py:172-217 | The file becomes its old contents followed by exactly the rows the run appends, so it is never truncated. The outcome is the workbook of the kept rows, or the first exception. |
| `Export.ExportTwice` | netbox_api.py:172-217 | Running the export twice, on any two dates, appends each run's rows to the file, the same number of rows both times. Both runs succeed or both fail with the same exception. The two workbooks have the same number of rows, and are identical when the dates are the same. |
| `WriteBack.WriteBackAge` | netbox_api.py:231-239 | An Active device with a truthy Birthday gets `age` set to the computed age, overwriting any old value. No other field or custom field changes. Other devices are left as they are. An unparsable Birthday raises. |
| `WriteBack.FirstFailure` | netbox_api.py:231-240 | This is the first device whose write-back raises. Every device before it succeeds. |
| `WriteBack.WriteBackIdempotent` | netbox_api.py:231-239 | Writing the age back a second time changes nothing. |
| `WriteBack.ExportAfterWriteBack` | netbox_api.py:193-197 | After a write-back, the export reports the freshly computed age. For a device that had no `age`, the exported row is unchanged. |
| `WriteBack.WriteBackOne` | netbox_api.py:232-239 | One loop turn applies the one-device write-back to the object, or raises and leaves it untouched. |
| `WriteBack.UpdateAge` | netbox_api.py:225-245 | The objects before the first failing device are written back. All other objects keep their records. The call fails exactly when some device's write-back raises. |

## Left out

- Logging setup and every `logger` call (netbox_api.py:4-25): they only produce diagnostics.
- The module check, `pip install` and the interactive prompt (netbox_api.py:29-86): these are console and subprocess I/O.
- The config import and the environment variables (netbox_api.py:104-110): they are external configuration.
- The pynetbox client and its fetch (netbox_api.py:134-136): these are network calls, so the device list is an input sequence.
- `nb_device.save()` (netbox_api.py:239): a network commit, left as a comment in `WriteBack.WriteBackOne`.
- `get_freewheel_data`, `joke`, `show_help` and the `sys.argv` dispatch in `main` (netbox_api.py:115-131, 248-324): HTTP, printing and command-line plumbing.
- The clock: the script calls `datetime.today()` once per age it computes (netbox_api.py:141). In the export that is an Active device whose `age` is None and whose Birthday is truthy (netbox_api.py:194-195). In the write-back it is an Active device with a truthy Birthday (netbox_api.py:235-236). A run that crosses midnight could therefore see two dates. The model uses one `today` for the whole run.
- Custom-field values: the model allows only strings, integers and None. NetBox can also hold booleans, decimals, lists (multi-select) and objects there, and the workbook library refuses a list or dict cell when the row is appended (netbox_api.py:152).
- strptime's parsing rules: the parser is a parameter, so the formats it accepts are not modelled.
- The `str()` renderings of the client's objects (device, site, rack, type, serial, platform, primary IP, status): they are opaque strings.
- How the CSV writer renders cells as text (None as an empty field, quoting, line endings): the file holds the cells themselves.
- The worksheet's cell alignment and the saving of the workbook file (netbox_api.py:166-170).
- The workbook library's own cell handling: it cuts strings at 32,767 characters and rejects control characters. The model stores every cell as given.
- Other ways the script can stop, and its console output: a `save()` that raises part-way through `update_age` (netbox_api.py:239), an `open('output.csv', 'a')` that fails (netbox_api.py:212), a `wb.save` that fails (netbox_api.py:170), and the `print` banners of `get_devices` and `update_age` (netbox_api.py:175-178, 220-222, 227-230, 243-245). These are file, network and console effects. The model keeps only the three exceptions in `Failure`.
- Rack grouping and a rack workbook: the script has no such code.
- `Report.CsvToXlsx` and `Export.GetDevices` use the module-level header list `HEADERS` instead of a `headers` parameter, because the script only ever passes that global list.

## Behaviour worth knowing

The model keeps these behaviours of the code:

- **No CSV header row.** `get_devices` writes only device rows to `output.csv` (netbox_api.py:212-215). The header row appears only in the workbook (netbox_api.py:150).
- **For an Active device, a missing role or manufacturer aborts the whole export.** Role and manufacturer are read only for Active devices (netbox_api.py:183-189), and nothing in `get_devices` catches the `AttributeError` raised there. It reaches the catch-all in `main` (netbox_api.py:319-320), so the loop stops and no workbook is saved (`Failure.MissingRole`, `Failure.MissingManufacturer`).
- **An unparsable Birthday can abort the export or the write-back.** The export parses the Birthday only for an Active device whose `age` is None and whose Birthday is truthy (netbox_api.py:194). The write-back parses it for every Active device with a truthy Birthday (netbox_api.py:233-236). In both cases strptime raises at netbox_api.py:142 and nothing catches it before `main` (`Failure.UnparsableBirthday`). An Active device with an `age` already set is exported with that `age`, whatever its Birthday holds.
- **`update_age` overwrites an existing `age`.** Every Active device with a truthy Birthday gets a fresh value, whatever `age` held before (netbox_api.py:233-238).
