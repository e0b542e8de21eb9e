/**
 * The inventory form (components/InventoryForm.tsx): the device movement it
 * records, how a scanned barcode fills the serial number, and how a submit
 * turns the fields into a log and clears the form for the next device.
 * Upper-casing is a parameter `upper`; the barcode scanner itself is not
 * part of this model, only the text it hands back.
 */
module InventoryForm {
  import opened Wrappers
  import opened Types
  import Backend

  /** The device type buttons, in the order they are shown. */
  const DeviceTypes: seq<string> := ["MODEM", "GPON", "DECO", "STB"]

  /** The Hizmet No field is on the form, and required, unless the action is receiving. */
  predicate ServiceNumberShown(actionType: InventoryAction) {
    actionType != Receive
  }

  /**
   * The browser lets the form be submitted only when every required field on
   * it is filled: the serial number always, the service number when shown.
   */
  predicate Submittable(actionType: InventoryAction, serialNumber: string, hizmetNo: string) {
    serialNumber != "" && (ServiceNumberShown(actionType) ==> hizmetNo != "")
  }

  /** The log `handleSubmit` builds from the fields. */
  function BuildLog(actionType: InventoryAction, serialNumber: string, hizmetNo: string, deviceType: string,
                    ekipKodu: string, id: string, timestamp: string, upper: string -> string): (log: InventoryLog)
    ensures log.hizmetNo.None? <==> hizmetNo == ""
    ensures log.hizmetNo.Some? ==> log.hizmetNo.value == hizmetNo
    ensures log.serialNumber == upper(serialNumber) && log.deviceType == Some(deviceType)
    ensures log.actionType == actionType && log.status == Sent
  {
    InventoryLog(id, actionType, if hizmetNo == "" then None else Some(hizmetNo), upper(serialNumber),
                 Some(deviceType), ekipKodu, timestamp, Sent)
  }

  /** `JSON.stringify(log)`: a field left `undefined` is not written. */
  function LogPayload(log: InventoryLog): Backend.Payload {
    var fields := map["id" := log.id, "actionType" := log.actionType.Text(),
                      "serialNumber" := log.serialNumber, "ekipKodu" := log.ekipKodu,
                      "timestamp" := log.timestamp, "status" := log.status.Text(),
                      "reportType" := "inventory"];
    var withService := if log.hizmetNo.Some? then fields["hizmetNo" := log.hizmetNo.value] else fields;
    var withDevice := if log.deviceType.Some? then withService["deviceType" := log.deviceType.value] else withService;
    Backend.Payload(withDevice, None)
  }

  class Form {
    var actionType: InventoryAction
    var serialNumber: string
    var hizmetNo: string
    var deviceType: string
    var isSubmitting: bool
    var showScanner: bool

    /** The device type is always one of the four buttons. */
    predicate Valid()
      reads this
    {
      deviceType in DeviceTypes
    }

    /** The defaults: receiving a MODEM, nothing typed, the scanner closed. */
    constructor()
      ensures Valid()
      ensures actionType == Receive && deviceType == "MODEM"
      ensures serialNumber == "" && hizmetNo == ""
      ensures !isSubmitting && !showScanner
    {
      actionType := Receive;
      serialNumber := "";
      hizmetNo := "";
      deviceType := "MODEM";
      isSubmitting := false;
      showScanner := false;
    }

    /** An action tab: the typed fields are kept. */
    method SetActionType(a: InventoryAction)
      requires Valid()
      modifies this
      ensures Valid()
      ensures actionType == a
      ensures serialNumber == old(serialNumber) && hizmetNo == old(hizmetNo) && deviceType == old(deviceType)
      ensures isSubmitting == old(isSubmitting) && showScanner == old(showScanner)
    {
      actionType := a;
    }

    /** A device type button. */
    method ChooseDevice(i: nat)
      requires Valid() && i < |DeviceTypes|
      modifies this
      ensures Valid()
      ensures deviceType == DeviceTypes[i]
      ensures actionType == old(actionType) && serialNumber == old(serialNumber) && hizmetNo == old(hizmetNo)
      ensures isSubmitting == old(isSubmitting) && showScanner == old(showScanner)
    {
      deviceType := DeviceTypes[i];
    }

    /** Typing in the serial number and service number fields. */
    method Type(serial: string, service: string)
      requires Valid()
      modifies this
      ensures Valid()
      ensures serialNumber == serial && hizmetNo == service
      ensures actionType == old(actionType) && deviceType == old(deviceType)
      ensures isSubmitting == old(isSubmitting) && showScanner == old(showScanner)
    {
      serialNumber := serial;
      hizmetNo := service;
    }

    /** The scan button opens the scanner. */
    method OpenScanner()
      requires Valid()
      modifies this
      ensures Valid() && showScanner
      ensures actionType == old(actionType) && serialNumber == old(serialNumber)
      ensures hizmetNo == old(hizmetNo) && deviceType == old(deviceType) && isSubmitting == old(isSubmitting)
    {
      showScanner := true;
    }

    /** `handleScanSuccess`: the scanned text, upper-cased, becomes the serial number and the scanner closes. */
    method HandleScanSuccess(text: string, upper: string -> string)
      requires Valid()
      modifies this
      ensures Valid()
      ensures serialNumber == upper(text) && !showScanner
      ensures actionType == old(actionType) && hizmetNo == old(hizmetNo) && deviceType == old(deviceType)
      ensures isSubmitting == old(isSubmitting)
    {
      serialNumber := upper(text);
      showScanner := false;
    }

    /**
     * `handleSubmit`: the log is built from the fields, posted when a sheet URL
     * is set, and handed on whatever the post did. The serial and service
     * numbers are then cleared; the action and the device type stay.
     */
    method HandleSubmit(ekipKodu: string, sheetUrl: string, id: string, timestamp: string,
                        upper: string -> string)
      returns (log: InventoryLog, request: Option<Backend.Payload>)
      requires Valid()
      modifies this
      ensures Valid()
      ensures log == BuildLog(old(actionType), old(serialNumber), old(hizmetNo), old(deviceType),
                              ekipKodu, id, timestamp, upper)
      ensures request == if sheetUrl != "" then Some(LogPayload(log)) else None
      ensures serialNumber == "" && hizmetNo == ""
      ensures actionType == old(actionType) && deviceType == old(deviceType)
      ensures !isSubmitting && showScanner == old(showScanner)
    {
      isSubmitting := true;
      log := BuildLog(actionType, serialNumber, hizmetNo, deviceType, ekipKodu, id, timestamp, upper);
      request := if sheetUrl != "" then Some(LogPayload(log)) else None;
      isSubmitting := false;
      serialNumber := "";
      hizmetNo := "";
    }
  }

  /** The script reads a posted log as an inventory movement, field by field. */
  lemma LogPayloadReads(log: InventoryLog)
    ensures Backend.KindOf(Backend.ReportType(LogPayload(log))) == Backend.Inventory
    ensures Backend.Cell(LogPayload(log), "actionType") == log.actionType.Text()
    ensures Backend.Cell(LogPayload(log), "serialNumber") == log.serialNumber
    ensures Backend.OrDash(LogPayload(log), "hizmetNo") ==
            if log.hizmetNo.None? || log.hizmetNo.value == "" then "-" else log.hizmetNo.value
    ensures Backend.Cell(LogPayload(log), "deviceType") == if log.deviceType.Some? then log.deviceType.value else ""
    ensures Backend.OrDash(LogPayload(log), "ekipKodu") == if log.ekipKodu == "" then "-" else log.ekipKodu
  {
    var p := LogPayload(log);
    assert "reportType" in p.fields && p.fields["reportType"] == "inventory";
    assert Backend.KindOf("inventory") == Backend.Inventory;
  }

  /**
   * A submitted log lands in the inventory sheet as the row timestamp, team,
   * action, upper-cased serial number, service number ("-" when none was
   * typed) and device type.
   */
  lemma SubmittedLogRow(actionType: InventoryAction, serialNumber: string, hizmetNo: string,
                        deviceType: string, ekipKodu: string, id: string, timestamp: string,
                        upper: string -> string, stamp: string, photo: string)
    ensures var p := LogPayload(BuildLog(actionType, serialNumber, hizmetNo, deviceType, ekipKodu, id, timestamp, upper));
            Backend.SchemaRow(Backend.Inventory, p, stamp, photo)
            == [stamp, if ekipKodu == "" then "-" else ekipKodu, actionType.Text(), upper(serialNumber),
                if hizmetNo == "" then "-" else hizmetNo, deviceType]
  {
    var log := BuildLog(actionType, serialNumber, hizmetNo, deviceType, ekipKodu, id, timestamp, upper);
    LogPayloadReads(log);
    Backend.InventoryRowIsSchemaRow(LogPayload(log), stamp, photo);
  }

  /**
   * Installing or returning a device can only be submitted with a service
   * number, so its row never shows "-" there; receiving without one does.
   */
  lemma ServiceNumberInRow(actionType: InventoryAction, serialNumber: string, hizmetNo: string,
                           deviceType: string, ekipKodu: string, id: string, timestamp: string,
                           upper: string -> string, stamp: string, photo: string)
    requires Submittable(actionType, serialNumber, hizmetNo)
    ensures var p := LogPayload(BuildLog(actionType, serialNumber, hizmetNo, deviceType, ekipKodu, id, timestamp, upper));
            var row := Backend.SchemaRow(Backend.Inventory, p, stamp, photo);
            && |row| == 6
            && (actionType != Receive ==> row[4] == hizmetNo && hizmetNo != "")
            && (actionType == Receive ==> row[4] == if hizmetNo == "" then "-" else hizmetNo)
  {
    SubmittedLogRow(actionType, serialNumber, hizmetNo, deviceType, ekipKodu, id, timestamp, upper, stamp, photo);
  }
}
