/**
 * `update_age`: every Active device with a truthy Birthday gets its `age`
 * custom field set to the age computed from that birthday, in place on the
 * client's device object.
 */
module WriteBack {
  import opened Wrappers
  import opened Inventory
  import opened Age
  import opened Report
  import opened Export

  /** A device object of the client; `update_age` changes its custom fields in place. */
  class RemoteDevice {
    var record: Device
  }

  /**
   * What `update_age` does to one device: an Active device with a truthy
   * Birthday gets `age` set to the computed age, overwriting any earlier
   * value, or the birthday fails to parse; every other device is left as it is.
   */
  function WriteBackAge(d: Device, today: Date, parse: string -> Option<Date>): (r: Result<Device, Failure>)
    ensures var birthday := Field(d.customFields, "Birthday");
      r.Err? <==> IsActive(d) && Truthy(birthday) && AgeOfBirthday(birthday, today, parse).None?
    ensures r.Err? ==> r.error == UnparsableBirthday(Field(d.customFields, "Birthday"))
    ensures r.Ok? && !(IsActive(d) && Truthy(Field(d.customFields, "Birthday"))) ==> r.value == d
    ensures r.Ok? && IsActive(d) && Truthy(Field(d.customFields, "Birthday")) ==>
      && r.value.customFields.Keys == d.customFields.Keys + {"age"}
      && r.value.customFields["age"] == Int(AgeOfBirthday(Field(d.customFields, "Birthday"), today, parse).value)
      && (forall key :: key in d.customFields && key != "age" ==> r.value.customFields[key] == d.customFields[key])
      && r.value.(customFields := d.customFields) == d
  {
    var birthday := Field(d.customFields, "Birthday");
    if IsActive(d) && Truthy(birthday) then
      match AgeOfBirthday(birthday, today, parse)
      case Some(months) => Ok(d.(customFields := d.customFields["age" := Int(months)]))
      case None => Err(UnparsableBirthday(birthday))
    else
      Ok(d)
  }

  /** The index of the first device whose write-back raises, or the length of the list when none does. */
  function FirstFailure(records: seq<Device>, today: Date, parse: string -> Option<Date>): (n: nat)
    ensures n <= |records|
    ensures forall j :: 0 <= j < n ==> WriteBackAge(records[j], today, parse).Ok?
    ensures n < |records| ==> WriteBackAge(records[n], today, parse).Err?
    decreases |records|
  {
    if records == [] then 0
    else if WriteBackAge(records[0], today, parse).Err? then 0
    else 1 + FirstFailure(records[1..], today, parse)
  }

  /** The records the device objects currently hold. */
  ghost function Records(devices: seq<RemoteDevice>): seq<Device>
    reads devices
  {
    seq(|devices|, k reads devices requires 0 <= k < |devices| => devices[k].record)
  }

  /** Writing the age back a second time changes nothing. */
  lemma WriteBackIdempotent(d: Device, today: Date, parse: string -> Option<Date>)
    requires WriteBackAge(d, today, parse).Ok?
    ensures WriteBackAge(WriteBackAge(d, today, parse).value, today, parse) == WriteBackAge(d, today, parse)
  {
    var birthday := Field(d.customFields, "Birthday");
    if IsActive(d) && Truthy(birthday) {
      var d' := WriteBackAge(d, today, parse).value;
      assert Field(d'.customFields, "Birthday") == birthday;
      assert d'.customFields["age" := d'.customFields["age"]] == d'.customFields;
    }
  }

  /**
   * After the write-back, the export shows the freshly computed age for the
   * device, whatever `age` held before; and for a device that had no `age`,
   * the exported row is exactly what it was.
   */
  lemma ExportAfterWriteBack(d: Device, today: Date, parse: string -> Option<Date>)
    requires IsActive(d) && Truthy(Field(d.customFields, "Birthday"))
    requires d.role.Some? && d.manufacturer.Some?
    requires WriteBackAge(d, today, parse).Ok?
    ensures var written := WriteBackAge(d, today, parse).value;
      && Normalize(written, today, parse).Ok?
      && Normalize(written, today, parse).value[AgeMonths]
           == Int(AgeOfBirthday(Field(d.customFields, "Birthday"), today, parse).value)
    ensures Field(d.customFields, "age") == Null ==>
      Normalize(WriteBackAge(d, today, parse).value, today, parse) == Normalize(d, today, parse)
  {
    var written := WriteBackAge(d, today, parse).value;
    var months := AgeOfBirthday(Field(d.customFields, "Birthday"), today, parse).value;
    assert Field(written.customFields, "age") == Int(months);
    assert AgeCell(written.customFields, today, parse) == Ok(Int(months));
    if Field(d.customFields, "age") == Null {
      assert AgeCell(d.customFields, today, parse) == Ok(Int(months));
      var fields, fields' := d.customFields, written.customFields;
      assert Field(fields', "owner") == Field(fields, "owner");
      assert Field(fields', "Birthday") == Field(fields, "Birthday");
      assert Field(fields', "service_contract") == Field(fields, "service_contract");
      assert Field(fields', "warranty") == Field(fields, "warranty");
      assert Field(fields', "SW") == Field(fields, "SW");
      assert Field(fields', "SW_Version") == Field(fields, "SW_Version");
      assert DeviceRow(written, d.role.value, d.manufacturer.value, Int(months))
          == DeviceRow(d, d.role.value, d.manufacturer.value, Int(months));
    }
  }

  /** The body of `update_age`'s loop for one device object. */
  method WriteBackOne(device: RemoteDevice, today: Date, parse: string -> Option<Date>)
    returns (failure: Option<Failure>)
    modifies device
    ensures failure.None? ==> WriteBackAge(old(device.record), today, parse) == Ok(device.record)
    ensures failure.Some? ==> WriteBackAge(old(device.record), today, parse) == Err(failure.value)
                              && device.record == old(device.record)
  {
    var status := device.record.status;
    if status == "Active" {
      var birthday := Field(device.record.customFields, "Birthday");
      if Truthy(birthday) {
        var age := AgeOfBirthday(birthday, today, parse);
        if age.None? {
          return Some(UnparsableBirthday(birthday));
        }
        device.record := device.record.(customFields := device.record.customFields["age" := Int(age.value)]);
        // nb_device.save() commits the change to the remote system; not modelled
      }
    }
    failure := None;
  }

  /**
   * `update_age`: walk the list, updating each Active device that has a
   * truthy Birthday; a birthday that cannot be parsed raises and stops the
   * walk. The devices before the failing one are written back, the others
   * are left as they were; a device object listed twice is written back once
   * in effect.
   */
  method UpdateAge(devices: seq<RemoteDevice>, today: Date, parse: string -> Option<Date>)
    returns (failure: Option<Failure>)
    modifies devices
    ensures var n := FirstFailure(old(Records(devices)), today, parse);
      && (failure.None? <==> n == |devices|)
      && (failure.Some? ==> WriteBackAge(old(devices[n].record), today, parse) == Err(failure.value))
      && forall k :: 0 <= k < |devices| ==>
           if devices[k] in devices[..n]
           then WriteBackAge(old(devices[k].record), today, parse) == Ok(devices[k].record)
           else devices[k].record == old(devices[k].record)
  {
    ghost var records := Records(devices);
    ghost var n := FirstFailure(records, today, parse);
    for i := 0 to |devices|
      invariant i <= n
      invariant forall k :: 0 <= k < |devices| ==>
        if devices[k] in devices[..i]
        then WriteBackAge(records[k], today, parse) == Ok(devices[k].record)
        else devices[k].record == records[k]
    {
      var device := devices[i];
      assert devices[..i + 1] == devices[..i] + [device];
      ghost var aliased := device in devices[..i];
      if aliased {
        WriteBackIdempotent(records[i], today, parse);
      }
      var result := WriteBackOne(device, today, parse);
      if result.Some? {
        assert !aliased && i == n;
        return result;
      }
    }
    failure := None;
  }
}
