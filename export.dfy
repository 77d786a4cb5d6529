/**
 * `get_devices`: keep the Active devices, build one row per device, append
 * the whole list of rows gathered so far to `output.csv` after every device,
 * and finally save the rows as `output.xlsx`.
 */
module Export {
  import opened Wrappers
  import opened Inventory
  import opened Age
  import opened Report

  /** The keys of a device row: the headers, except that the software field goes under SW. */
  const ROW_KEYS: set<ColumnName> := {
    Name, Status, Site, Rack, Role, Manufacturer, Type, Owner, Birthday, AgeMonths,
    ServiceContract, Warranty, SerialNumber, Platform, SW, SWVersion, PrimaryIp}

  /** Position of the Software header. */
  const SOFTWARE: nat := 14

  /**
   * The `Age (Months)` cell: an `age` field that is not None is taken as it
   * is; otherwise a truthy Birthday is turned into an age, and strptime's
   * failure aborts; otherwise the cell is None.
   */
  function AgeCell(fields: map<string, Value>, today: Date, parse: string -> Option<Date>): Result<Value, Failure> {
    var age := Field(fields, "age");
    var birthday := Field(fields, "Birthday");
    if age == Null && Truthy(birthday) then
      match AgeOfBirthday(birthday, today, parse)
      case Some(months) => Ok(Int(months))
      case None => Err(UnparsableBirthday(birthday))
    else
      Ok(age)
  }

  /** The dictionary `result` filled in for a device whose role and manufacturer resolved. */
  function DeviceRow(d: Device, role: string, manufacturer: string, age: Value): (row: Row)
    ensures row.Keys == ROW_KEYS
  {
    var fields := d.customFields;
    var birthday := Field(fields, "Birthday");
    var sw := Field(fields, "SW");
    map[
      Name := Str(d.name),
      Status := Str(d.status),
      Site := Str(d.site),
      Rack := Str(d.rack),
      Role := Str(role),
      Manufacturer := Str(manufacturer),
      Type := Str(d.deviceType),
      Owner := Field(fields, "owner"),
      Birthday := birthday,
      AgeMonths := age,
      ServiceContract := Field(fields, "service_contract"),
      Warranty := Field(fields, "warranty"),
      SerialNumber := Str(d.serial),
      Platform := Str(d.platform),
      SW := sw,
      SWVersion := Field(fields, "SW_Version"),
      PrimaryIp := Str(d.primaryIp)]
  }

  /** The identity cells of a device row. */
  lemma DeviceRowIdentity(d: Device, role: string, manufacturer: string, age: Value)
    ensures var row := DeviceRow(d, role, manufacturer, age);
            && row[Name] == Str(d.name)
            && row[Status] == Str(d.status)
            && row[Role] == Str(role)
            && row[Manufacturer] == Str(manufacturer)
  {
  }

  /** The cells of a device row that come from custom fields or the age. */
  lemma DeviceRowCustomCells(d: Device, role: string, manufacturer: string, age: Value)
    ensures var row := DeviceRow(d, role, manufacturer, age);
            && row[Birthday] == Field(d.customFields, "Birthday")
            && row[AgeMonths] == age
            && row[SW] == Field(d.customFields, "SW")
  {
  }

  /** The cells of a device row copied from custom fields that play no other part. */
  lemma DeviceRowPlainCustomCells(d: Device, role: string, manufacturer: string, age: Value)
    ensures var row := DeviceRow(d, role, manufacturer, age);
            && row[Owner] == Field(d.customFields, "owner")
            && row[ServiceContract] == Field(d.customFields, "service_contract")
            && row[Warranty] == Field(d.customFields, "warranty")
            && row[SWVersion] == Field(d.customFields, "SW_Version")
  {
  }

  /**
   * The row built for one Active device, or the exception that building it
   * raises: a missing role first, then a missing manufacturer, then a
   * birthday that cannot be parsed.
   */
  function Normalize(d: Device, today: Date, parse: string -> Option<Date>): (r: Result<Row, Failure>)
    ensures d.role.None? ==> r == Err(MissingRole)
    ensures d.role.Some? && d.manufacturer.None? ==> r == Err(MissingManufacturer)
    ensures r.Ok? ==> && d.role.Some? && d.manufacturer.Some?
                      && r.value.Keys == ROW_KEYS
                      && r.value[Name] == Str(d.name)
                      && r.value[Status] == Str(d.status)
                      && r.value[Role] == Str(d.role.value)
                      && r.value[Manufacturer] == Str(d.manufacturer.value)
                      && r.value[Birthday] == Field(d.customFields, "Birthday")
                      && r.value[SW] == Field(d.customFields, "SW")
    ensures d.role.Some? && d.manufacturer.Some? ==>
      var age := Field(d.customFields, "age");
      var birthday := Field(d.customFields, "Birthday");
      && (age != Null ==> r.Ok? && r.value[AgeMonths] == age)
      && (age == Null && !Truthy(birthday) ==> r.Ok? && r.value[AgeMonths] == Null)
      && (age == Null && Truthy(birthday) ==>
            match AgeOfBirthday(birthday, today, parse)
            case Some(months) => r.Ok? && r.value[AgeMonths] == Int(months)
            case None => r == Err(UnparsableBirthday(birthday)))
  {
    if d.role.None? then Err(MissingRole)
    else if d.manufacturer.None? then Err(MissingManufacturer)
    else
      match AgeCell(d.customFields, today, parse)
      case Err(e) => Err(e)
      case Ok(age) =>
        DeviceRowIdentity(d, d.role.value, d.manufacturer.value, age);
        DeviceRowCustomCells(d, d.role.value, d.manufacturer.value, age);
        Ok(DeviceRow(d, d.role.value, d.manufacturer.value, age))
  }

  /**
   * Owner, Service Contract, Warranty and SW_Version are read with
   * `custom_fields.get`, so a field the device lacks gives None rather than an
   * exception; a device with neither `age` nor Birthday still yields a row,
   * with None in both cells.
   */
  lemma MissingCustomFieldsAreNone(d: Device, today: Date, parse: string -> Option<Date>)
    requires d.role.Some? && d.manufacturer.Some?
    ensures var fields, r := d.customFields, Normalize(d, today, parse);
      r.Ok? ==>
        && ("owner" !in fields ==> r.value[Owner] == Null)
        && ("service_contract" !in fields ==> r.value[ServiceContract] == Null)
        && ("warranty" !in fields ==> r.value[Warranty] == Null)
        && ("SW_Version" !in fields ==> r.value[SWVersion] == Null)
    ensures var fields, r := d.customFields, Normalize(d, today, parse);
      "age" !in fields && "Birthday" !in fields ==>
        r.Ok? && r.value[AgeMonths] == Null && r.value[Birthday] == Null
  {
    match AgeCell(d.customFields, today, parse)
    case Err(_) =>
    case Ok(age) =>
      DeviceRowPlainCustomCells(d, d.role.value, d.manufacturer.value, age);
  }

  /** Whether a device's row raises, and with what, does not depend on the date. */
  lemma NormalizeClockFree(d: Device, firstDay: Date, secondDay: Date, parse: string -> Option<Date>)
    ensures Normalize(d, firstDay, parse).Ok? <==> Normalize(d, secondDay, parse).Ok?
    ensures Normalize(d, firstDay, parse).Err? ==> Normalize(d, firstDay, parse) == Normalize(d, secondDay, parse)
  {
    var birthday := Field(d.customFields, "Birthday");
    assert AgeOfBirthday(birthday, firstDay, parse).Some? <==> AgeOfBirthday(birthday, secondDay, parse).Some?;
  }

  /**
   * Software is a header but never a row key, so its column always falls
   * back to ''; every other header is a row key, so no other column does.
   */
  lemma SoftwareColumnEmpty(row: Row)
    requires row.Keys == ROW_KEYS
    ensures HEADERS[SOFTWARE] == Software && Label(Software) == "Software"
    ensures SW in row && Label(SW) == "SW"
    ensures Project(row)[SOFTWARE] == Str("")
    ensures forall i :: 0 <= i < |HEADERS| && i != SOFTWARE ==> Project(row)[i] == row[HEADERS[i]]
  {
    assert Software !in ROW_KEYS;
    assert forall i :: 0 <= i < |HEADERS| && i != SOFTWARE ==> HEADERS[i] in ROW_KEYS;
  }

  /** The state of `get_devices` between two devices: `devices_data`, what this run appended to `output.csv`, and the exception that stopped it. */
  datatype Progress = Progress(devicesData: seq<Row>, appended: seq<seq<Value>>, failure: Option<Failure>)

  /**
   * One turn of the loop: an Active device adds its row (or raises), and then,
   * Active or not, every row gathered so far is appended to the file again.
   */
  function Step(p: Progress, d: Device, today: Date, parse: string -> Option<Date>): Progress {
    if p.failure.Some? then p
    else if !IsActive(d) then p.(appended := p.appended + ProjectAll(p.devicesData))
    else
      match Normalize(d, today, parse)
      case Err(e) => p.(failure := Some(e))
      case Ok(row) =>
        var data := p.devicesData + [row];
        Progress(data, p.appended + ProjectAll(data), None)
  }

  /** The loop of `get_devices` run over `devices`, in order, from an empty `devices_data`. */
  function Run(devices: seq<Device>, today: Date, parse: string -> Option<Date>): Progress
    decreases |devices|
  {
    if devices == [] then Progress([], [], None)
    else Step(Run(devices[..|devices| - 1], today, parse), devices[|devices| - 1], today, parse)
  }

  /** The Active devices, in list order. */
  function ActiveDevices(devices: seq<Device>): seq<Device>
    decreases |devices|
  {
    if devices == [] then []
    else
      var rest := ActiveDevices(devices[..|devices| - 1]);
      if IsActive(devices[|devices| - 1]) then rest + [devices[|devices| - 1]] else rest
  }

  /** The number of Active devices among the first k, summed over k = 1 .. |devices|. */
  function SumActivePrefixes(devices: seq<Device>): nat
    decreases |devices|
  {
    if devices == [] then 0
    else SumActivePrefixes(devices[..|devices| - 1]) + |ActiveDevices(devices)|
  }

  /**
   * The run gets through the list exactly when every Active device yields a
   * row, and then `devices_data` holds the rows of the Active devices, one
   * each, in list order; inactive devices contribute nothing.
   */
  lemma {:induction false} RunKeepsActiveRows(devices: seq<Device>, today: Date, parse: string -> Option<Date>)
    ensures var p := Run(devices, today, parse);
      p.failure.None? <==> forall i :: 0 <= i < |devices| && IsActive(devices[i]) ==> Normalize(devices[i], today, parse).Ok?
    ensures var p := Run(devices, today, parse);
      p.failure.None? ==>
        && |p.devicesData| == |ActiveDevices(devices)|
        && forall i :: 0 <= i < |p.devicesData| ==> Normalize(ActiveDevices(devices)[i], today, parse) == Ok(p.devicesData[i])
    decreases |devices|
  {
    if devices != [] {
      var init := devices[..|devices| - 1];
      var last := devices[|devices| - 1];
      RunKeepsActiveRows(init, today, parse);
      assert forall i :: 0 <= i < |init| ==> devices[i] == init[i];
      var p := Run(devices, today, parse);
      if p.failure.None? {
        assert Run(init, today, parse).failure.None?;
      }
    }
  }

  /**
   * The run over one more device is one more step: an unfolding of `Run`,
   * used by `HandleDevice`, which ties the step to the file.
   */
  lemma RunOneMore(devices: seq<Device>, i: nat, today: Date, parse: string -> Option<Date>)
    requires i < |devices|
    ensures Run(devices[..i + 1], today, parse) == Step(Run(devices[..i], today, parse), devices[i], today, parse)
  {
    assert devices[..i + 1][..i] == devices[..i];
  }

  /** A stopped run stays stopped: the rest of the list changes nothing. */
  lemma {:induction false} FailureIsFinal(devices: seq<Device>, k: nat, today: Date, parse: string -> Option<Date>)
    requires k <= |devices| && Run(devices[..k], today, parse).failure.Some?
    ensures Run(devices, today, parse) == Run(devices[..k], today, parse)
    decreases |devices| - k
  {
    if k < |devices| {
      assert devices[..k + 1][..k] == devices[..k];
      FailureIsFinal(devices, k + 1, today, parse);
    } else {
      assert devices[..k] == devices;
    }
  }

  /**
   * A run that stops does so at the first Active device whose row cannot be
   * built, with that device's exception.
   */
  lemma {:induction false} RunStopsAtFirstFailure(devices: seq<Device>, today: Date, parse: string -> Option<Date>)
    requires Run(devices, today, parse).failure.Some?
    ensures exists k :: && 0 <= k < |devices| && IsActive(devices[k])
                        && Normalize(devices[k], today, parse) == Err(Run(devices, today, parse).failure.value)
                        && forall j :: 0 <= j < k && IsActive(devices[j]) ==> Normalize(devices[j], today, parse).Ok?
    decreases |devices|
  {
    var init := devices[..|devices| - 1];
    var last := devices[|devices| - 1];
    assert forall i :: 0 <= i < |init| ==> devices[i] == init[i];
    if Run(init, today, parse).failure.Some? {
      RunStopsAtFirstFailure(init, today, parse);
    } else {
      RunKeepsActiveRows(init, today, parse);
      assert IsActive(last) && Normalize(last, today, parse).Err?;
    }
  }

  /** After the run, the file has grown by the Active count of every prefix of the list, summed. */
  lemma {:induction false} RunAppendCount(devices: seq<Device>, today: Date, parse: string -> Option<Date>)
    requires Run(devices, today, parse).failure.None?
    ensures |Run(devices, today, parse).appended| == SumActivePrefixes(devices)
    decreases |devices|
  {
    if devices != [] {
      var init := devices[..|devices| - 1];
      assert Run(init, today, parse).failure.None?;
      RunAppendCount(init, today, parse);
      RunKeepsActiveRows(devices, today, parse);
    }
  }

  /** With n devices all Active, one run appends n(n+1)/2 rows. */
  lemma AllActiveAppendsTriangle(devices: seq<Device>, today: Date, parse: string -> Option<Date>)
    requires forall i :: 0 <= i < |devices| ==> IsActive(devices[i]) && Normalize(devices[i], today, parse).Ok?
    ensures 2 * |Run(devices, today, parse).appended| == |devices| * (|devices| + 1)
  {
    RunKeepsActiveRows(devices, today, parse);
    RunAppendCount(devices, today, parse);
    SumActivePrefixesTriangle(devices);
  }

  lemma {:induction false} SumActivePrefixesTriangle(devices: seq<Device>)
    requires forall i :: 0 <= i < |devices| ==> IsActive(devices[i])
    ensures 2 * SumActivePrefixes(devices) == |devices| * (|devices| + 1)
    decreases |devices|
  {
    if devices != [] {
      var n := |devices|;
      var init := devices[..n - 1];
      SumActivePrefixesTriangle(init);
      AllActiveCount(devices);
      assert (n - 1) * n + 2 * n == n * (n + 1);
    }
  }

  lemma {:induction false} AllActiveCount(devices: seq<Device>)
    requires forall i :: 0 <= i < |devices| ==> IsActive(devices[i])
    ensures |ActiveDevices(devices)| == |devices|
    decreases |devices|
  {
    if devices != [] {
      AllActiveCount(devices[..|devices| - 1]);
    }
  }

  /**
   * The rows appended while handling device k are exactly `devices_data` as
   * it stands after device k. This reads `Step` at one index; `HandleDevice`
   * and `ExportLoop` show the file receives these rows.
   */
  lemma AppendedAtEachStep(devices: seq<Device>, k: nat, today: Date, parse: string -> Option<Date>)
    requires k < |devices| && Run(devices[..k + 1], today, parse).failure.None?
    ensures Run(devices[..k + 1], today, parse).appended
         == Run(devices[..k], today, parse).appended + ProjectAll(Run(devices[..k + 1], today, parse).devicesData)
  {
    assert devices[..k + 1][..k] == devices[..k];
  }

  /** Projected rows of well-formed device rows have one cell per header and an empty Software cell. */
  lemma ProjectAllLayout(rows: seq<Row>)
    requires forall row <- rows :: row.Keys == ROW_KEYS
    ensures forall cells <- ProjectAll(rows) :: |cells| == |HEADERS| && cells[SOFTWARE] == Str("")
  {
    forall i | 0 <= i < |rows|
      ensures ProjectAll(rows)[i][SOFTWARE] == Str("")
    {
      SoftwareColumnEmpty(rows[i]);
    }
  }

  /** Every row the run keeps is an Active device's row, with the 17 keys. */
  lemma {:induction false} RunKeptRows(devices: seq<Device>, today: Date, parse: string -> Option<Date>)
    ensures forall row <- Run(devices, today, parse).devicesData :: row.Keys == ROW_KEYS && row[Status] == Str("Active")
    decreases |devices|
  {
    if devices != [] {
      var init := devices[..|devices| - 1];
      var last := devices[|devices| - 1];
      RunKeptRows(init, today, parse);
      var q := Run(init, today, parse);
      if q.failure.None? && IsActive(last) && Normalize(last, today, parse).Ok? {
        var row := Normalize(last, today, parse).value;
        assert Run(devices, today, parse).devicesData == q.devicesData + [row];
      }
    }
  }

  /** Every row the run appends to the file has one cell per header, and its Software cell is empty. */
  lemma {:induction false} RunAppendedLayout(devices: seq<Device>, today: Date, parse: string -> Option<Date>)
    ensures forall cells <- Run(devices, today, parse).appended :: |cells| == |HEADERS| && cells[SOFTWARE] == Str("")
    decreases |devices|
  {
    if devices != [] {
      var init := devices[..|devices| - 1];
      RunAppendedLayout(init, today, parse);
      RunKeptRows(devices, today, parse);
      ProjectAllLayout(Run(devices, today, parse).devicesData);
    }
  }

  /** In the saved workbook too, every device row has an empty Software cell. */
  lemma WorkbookSoftwareEmpty(devices: seq<Device>, today: Date, parse: string -> Option<Date>)
    ensures var sheet := Workbook(Run(devices, today, parse).devicesData);
      forall i :: 1 <= i < |sheet.rows| ==> sheet.rows[i][SOFTWARE] == Str("")
  {
    var data := Run(devices, today, parse).devicesData;
    RunKeptRows(devices, today, parse);
    WorkbookRows(data);
    forall i | 1 <= i < |Workbook(data).rows|
      ensures Workbook(data).rows[i][SOFTWARE] == Str("")
    {
      SoftwareColumnEmpty(data[i - 1]);
    }
  }

  /** A completed export saves the header row and exactly one row per Active device. */
  lemma WorkbookHasActiveRows(devices: seq<Device>, today: Date, parse: string -> Option<Date>)
    requires Run(devices, today, parse).failure.None?
    ensures |Workbook(Run(devices, today, parse).devicesData).rows| == |ActiveDevices(devices)| + 1
  {
    RunKeepsActiveRows(devices, today, parse);
    WorkbookRows(Run(devices, today, parse).devicesData);
  }

  /**
   * Two runs over the same list on different dates stop alike, keep as many
   * rows and append as many rows.
   */
  lemma {:induction false} RunShapeClockFree(devices: seq<Device>, firstDay: Date, secondDay: Date, parse: string -> Option<Date>)
    ensures Run(devices, firstDay, parse).failure == Run(devices, secondDay, parse).failure
    ensures |Run(devices, firstDay, parse).devicesData| == |Run(devices, secondDay, parse).devicesData|
    ensures |Run(devices, firstDay, parse).appended| == |Run(devices, secondDay, parse).appended|
    decreases |devices|
  {
    if devices != [] {
      RunShapeClockFree(devices[..|devices| - 1], firstDay, secondDay, parse);
      NormalizeClockFree(devices[|devices| - 1], firstDay, secondDay, parse);
    }
  }

  /** Appending two blocks of rows one after the other is appending them together. */
  lemma AppendTwice(lines: seq<seq<Value>>, first: seq<seq<Value>>, second: seq<seq<Value>>)
    ensures lines + first + second == lines + (first + second)
  {
  }

  /** `output.csv`, opened in append mode: rows only ever go on at the end. */
  class CsvFile {
    var lines: seq<seq<Value>>

    /** `writer_object.writerow(cells)`. */
    method WriteRow(cells: seq<Value>)
      modifies this
      ensures lines == old(lines) + [cells]
    {
      lines := lines + [cells];
    }
  }

  /** The `with open('output.csv', 'a')` block: one projected row per entry of `devices_data`. */
  method WriteRows(csv: CsvFile, devicesData: seq<Row>)
    modifies csv
    ensures csv.lines == old(csv.lines) + ProjectAll(devicesData)
  {
    for j := 0 to |devicesData|
      invariant csv.lines == old(csv.lines) + ProjectAll(devicesData[..j])
    {
      assert ProjectAll(devicesData[..j + 1]) == ProjectAll(devicesData[..j]) + [Project(devicesData[j])];
      csv.WriteRow(Project(devicesData[j]));
    }
    assert devicesData[..|devicesData|] == devicesData;
  }

  /**
   * Turn `i` of the loop of `get_devices`: build the row of device `i` if it
   * is Active (which may raise), then append all of `devices_data` to the
   * file again. The run over the first `i + 1` devices is the run over the
   * first `i` followed by this turn.
   */
  method HandleDevice(csv: CsvFile, devicesData: seq<Row>, devices: seq<Device>, i: nat, today: Date, parse: string -> Option<Date>)
    returns (data: seq<Row>, failure: Option<Failure>)
    requires i < |devices|
    requires Run(devices[..i], today, parse).failure.None? && Run(devices[..i], today, parse).devicesData == devicesData
    modifies csv
    ensures var before, after := Run(devices[..i], today, parse), Run(devices[..i + 1], today, parse);
      && after.failure == failure
      && (failure.None? ==> && after.devicesData == data
                            && after.appended == before.appended + ProjectAll(data)
                            && csv.lines == old(csv.lines) + ProjectAll(data))
      && (failure.Some? ==> after.appended == before.appended && csv.lines == old(csv.lines))
  {
    RunOneMore(devices, i, today, parse);
    data := devicesData;
    if devices[i].status == "Active" {
      var result := Normalize(devices[i], today, parse);
      if result.Err? {
        return data, Some(result.error);
      }
      data := data + [result.value];
    }
    WriteRows(csv, data);
    failure := None;
  }

  /**
   * The loop of `get_devices`: every device in turn, each turn re-appending
   * `devices_data` to the file, until the list ends or a row raises.
   */
  method ExportLoop(devices: seq<Device>, csv: CsvFile, today: Date, parse: string -> Option<Date>)
    returns (devicesData: seq<Row>, failure: Option<Failure>)
    modifies csv
    ensures csv.lines == old(csv.lines) + Run(devices, today, parse).appended
    ensures failure == Run(devices, today, parse).failure
    ensures failure.None? ==> devicesData == Run(devices, today, parse).devicesData
  {
    devicesData := [];
    for i := 0 to |devices|
      invariant Run(devices[..i], today, parse).failure.None?
      invariant Run(devices[..i], today, parse).devicesData == devicesData
      invariant csv.lines == old(csv.lines) + Run(devices[..i], today, parse).appended
    {
      ghost var appended := Run(devices[..i], today, parse).appended;
      devicesData, failure := HandleDevice(csv, devicesData, devices, i, today, parse);
      AppendTwice(old(csv.lines), appended, ProjectAll(devicesData));
      if failure.Some? {
        FailureIsFinal(devices, i + 1, today, parse);
        return;
      }
    }
    assert devices[..|devices|] == devices;
    failure := None;
  }

  /**
   * `get_devices`: one pass over the device list. The file ends up with
   * exactly the rows the run appended after what it held before; the saved
   * workbook is that of the kept rows; an exception stops the pass with the
   * file as it stood and no workbook.
   */
  method GetDevices(devices: seq<Device>, csv: CsvFile, today: Date, parse: string -> Option<Date>)
    returns (outcome: Result<Sheet, Failure>)
    modifies csv
    ensures csv.lines == old(csv.lines) + Run(devices, today, parse).appended
    ensures outcome.Ok? <==> Run(devices, today, parse).failure.None?
    ensures outcome.Err? ==> Run(devices, today, parse).failure == Some(outcome.error)
    ensures outcome.Ok? ==> outcome.value == Workbook(Run(devices, today, parse).devicesData)
  {
    var devicesData, failure := ExportLoop(devices, csv, today, parse);
    if failure.Some? {
      return Err(failure.value);
    }
    var sheet := CsvToXlsx(devicesData);
    return Ok(sheet);
  }

  /**
   * Two runs of the export over an unchanged device list, on two dates:
   * `output.csv` receives each run's rows, the same number both times; both
   * runs stop alike; the two workbooks have the same number of rows, and are
   * the same workbook when the dates are the same.
   */
  method ExportTwice(devices: seq<Device>, csv: CsvFile, firstDay: Date, secondDay: Date, parse: string -> Option<Date>)
    returns (first: Result<Sheet, Failure>, second: Result<Sheet, Failure>)
    modifies csv
    ensures csv.lines == old(csv.lines) + Run(devices, firstDay, parse).appended + Run(devices, secondDay, parse).appended
    ensures |Run(devices, firstDay, parse).appended| == |Run(devices, secondDay, parse).appended|
    ensures first.Ok? <==> second.Ok?
    ensures first.Err? ==> first == second
    ensures first.Ok? ==> |first.value.rows| == |second.value.rows|
    ensures firstDay == secondDay ==> first == second
  {
    first := GetDevices(devices, csv, firstDay, parse);
    second := GetDevices(devices, csv, secondDay, parse);
    RunShapeClockFree(devices, firstDay, secondDay, parse);
    WorkbookRows(Run(devices, firstDay, parse).devicesData);
    WorkbookRows(Run(devices, secondDay, parse).devicesData);
  }
}
