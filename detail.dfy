/**
 * The detail modal of one conversation item (`conversationViewHistoryDetail`):
 * the record the server returns for the item, the call fields picked out of it
 * for the managed package in use, the type flags the template switches on, the
 * recording page's address and the record each navigation link leads to.
 *
 * A record is a map from field API name to value. A lookup through a
 * relationship (`record.Owner?.Name`) is the field stored under its dotted
 * path (`"Owner.Name"`), and a field the record lacks reads as `undefined`.
 */
module ConversationViewHistoryDetail {
  import opened Js
  import opened Text

  type Record = map<string, JsValue>

  /** One item of an email conversation, as a map from property name to value. */
  type Item = map<string, JsValue>

  /** `record.field`: the stored value, or `undefined` when the field is missing. */
  function Get(record: Record, field: string): (v: JsValue)
    ensures field !in record ==> v == Undefined
  {
    if field in record then record[field] else Undefined
  }

  /** `String(v)`, as template literals and `+` with a string convert a value. */
  function StringOf(v: JsValue): (r: string)
    ensures v.Str? ==> r == v.s
  {
    match v
    case Undefined => "undefined"
    case Null => "null"
    case Bool(b) => if b then "true" else "false"
    case Num(n) => if n < 0 then "-" + DecimalString(-n) else DecimalString(n)
    case Str(s) => s
    case Obj => "[object Object]"
  }

  // ---------------------------------------------------------------------------
  // The server's answer

  /** The `getRecordInfo` payload: the record, its items and the call's context. */
  datatype DetailData = DetailData(
    record: Option<Record>,
    items: seq<Item>,
    isEnterprise: bool,
    callRecId: JsValue,
    callRecName: JsValue,
    callRecType: JsValue)

  /** What the wire hands to the component: data when the call succeeded, else an error. */
  datatype WireValue = WireValue(data: Option<DetailData>, error: JsValue)

  /** `data && data.record`: the response carries a record. */
  predicate HasRecord(value: WireValue)
  {
    value.data.Some? && value.data.value.record.Some?
  }

  // ---------------------------------------------------------------------------
  // Type flags

  /** The four conversation types the modal has a layout for. */
  datatype ConvoKind = EmailKind | CallKind | SmsKind | CustomKind

  const ALL_KINDS: set<ConvoKind> := {EmailKind, CallKind, SmsKind, CustomKind}

  /** The `type` value that selects each layout. */
  function KindName(k: ConvoKind): string
  {
    match k
    case EmailKind => "Email"
    case CallKind => "Call"
    case SmsKind => "SMS"
    case CustomKind => "Custom"
  }

  /** The layout a `type` value selects, compared with `===`. */
  function KindOf(t: JsValue): (r: Option<ConvoKind>)
  {
    if t == Str("Email") then Some(EmailKind)
    else if t == Str("Call") then Some(CallKind)
    else if t == Str("SMS") then Some(SmsKind)
    else if t == Str("Custom") then Some(CustomKind)
    else None
  }

  /** A type selects a layout exactly when it is that layout's name. */
  lemma KindOfName(t: JsValue, k: ConvoKind)
    ensures KindOf(t) == Some(k) <==> t == Str(KindName(k))
  {
  }

  /** The component's type flags. */
  datatype TypeFlags = TypeFlags(isCall: bool, isEmail: bool, isSMS: bool, isCustom: bool, isZoom: bool)

  /** The flag that shows a layout. */
  function Flag(f: TypeFlags, k: ConvoKind): bool
  {
    match k
    case EmailKind => f.isEmail
    case CallKind => f.isCall
    case SmsKind => f.isSMS
    case CustomKind => f.isCustom
  }

  /** `setConvoType`'s effect: the flag of the type's layout goes up. */
  function WithConvoType(f: TypeFlags, t: JsValue): TypeFlags
  {
    match KindOf(t)
    case Some(EmailKind) => f.(isEmail := true)
    case Some(CallKind) => f.(isCall := true)
    case Some(SmsKind) => f.(isSMS := true)
    case Some(CustomKind) => f.(isCustom := true)
    case None => f
  }

  /** The layouts whose flag is down in `f` and up in `g`. */
  function Raised(f: TypeFlags, g: TypeFlags): set<ConvoKind>
  {
    set k | k in ALL_KINDS && !Flag(f, k) && Flag(g, k)
  }

  /**
   * Setting the type raises the flag of the type's layout and no other, never
   * lowers a flag and leaves `isZoom` alone.
   */
  lemma WithConvoTypeFlags(f: TypeFlags, t: JsValue)
    ensures forall k :: Flag(WithConvoType(f, t), k) == (Flag(f, k) || KindOf(t) == Some(k))
    ensures WithConvoType(f, t).isZoom == f.isZoom
  {
  }

  /**
   * At most one flag goes up: the one of the type's layout, unless it was up
   * already; an unknown type raises none.
   */
  lemma WithConvoTypeRaisesOne(f: TypeFlags, t: JsValue)
    ensures Raised(f, WithConvoType(f, t))
         == if KindOf(t).Some? && !Flag(f, KindOf(t).value) then {KindOf(t).value} else {}
  {
    var g := WithConvoType(f, t);
    WithConvoTypeFlags(f, t);
    forall k | k in Raised(f, g) ensures KindOf(t) == Some(k) {
    }
  }

  // ---------------------------------------------------------------------------
  // Email items

  const ID_KEY: string := "id"

  /** `items.map(item => ({...item, id: recordId}))`. */
  function Retagged(items: seq<Item>, recordId: JsValue): (r: seq<Item>)
    ensures |r| == |items|
  {
    seq(|items|, i requires 0 <= i < |items| => items[i][ID_KEY := recordId])
  }

  /**
   * Item by item and in order, every re-tagged item has the record's id and
   * otherwise the same properties with the same values as the item it copies.
   */
  lemma RetaggedItems(items: seq<Item>, recordId: JsValue)
    ensures var r := Retagged(items, recordId);
      |r| == |items|
      && (forall i | 0 <= i < |r| :: ID_KEY in r[i] && r[i][ID_KEY] == recordId)
      && (forall i, key | 0 <= i < |r| && key != ID_KEY ::
            (key in r[i] <==> key in items[i]) && (key in items[i] ==> r[i][key] == items[i][key]))
  {
  }

  // ---------------------------------------------------------------------------
  // Call fields

  /** The call's fields as the modal shows them (`callObj`). */
  datatype CallObj = CallObj(
    createdDate: JsValue,
    createdBy: JsValue,
    createdById: JsValue,
    lastModifiedBy: JsValue,
    lastModifiedById: JsValue,
    lastModifiedDate: JsValue,
    callRecId: JsValue,
    callRecName: JsValue,
    callRecType: JsValue,
    callDuration: JsValue,
    subject: JsValue,
    date: JsValue,
    phone: JsValue,
    ownerName: JsValue,
    ownerId: JsValue,
    status: JsValue,
    notes: JsValue,
    recordingId: JsValue)

  /** The empty `callObj` the component starts with: every field reads `undefined`. */
  const EMPTY_CALL: CallObj := CallObj(
    Undefined, Undefined, Undefined, Undefined, Undefined, Undefined, Undefined, Undefined, Undefined,
    Undefined, Undefined, Undefined, Undefined, Undefined, Undefined, Undefined, Undefined, Undefined)

  const DESCRIPTION: string := "Description"

  /**
   * A call record can be mapped when the payload has a record and, outside the
   * enterprise package, the record's description is a string (the phone number
   * is cut out of it).
   */
  predicate CallMappable(data: DetailData)
  {
    data.record.Some? && (data.isEnterprise || Get(data.record.value, DESCRIPTION).Str?)
  }

  /**
   * `duration == null ? 0 : duration` on the package's duration field: a
   * missing duration counts as zero.
   */
  function DurationArgument(record: Record, isEnterprise: bool): (r: JsValue)
    ensures r != Null && r != Undefined
    ensures var d := Get(record, if isEnterprise then "DS_Denali__Call_Duration__c" else "CallDurationInSeconds");
      (d != Null && d != Undefined ==> r == d) && (d == Null || d == Undefined ==> r == Num(0))
  {
    var duration := if isEnterprise then Get(record, "DS_Denali__Call_Duration__c")
                    else Get(record, "CallDurationInSeconds");
    if duration == Null || duration == Undefined then Num(0) else duration
  }

  /**
   * The standard package's phone number: the description from position 7 up
   * to its first line break, with every non-digit removed.
   */
  function CallPhone(description: string): (r: string)
    ensures forall i | 0 <= i < |r| :: IsDigit(r[i])
  {
    KeepDigits(Slice(description, 7, IndexOf(description, "\n")))
  }

  /**
   * A description made of a seven-character tag, the number and a line
   * break gives back the number.
   */
  lemma PhoneOfDescription(tag: string, digits: string, rest: string)
    requires |tag| == 7 && '\n' !in tag
    requires forall i | 0 <= i < |digits| :: IsDigit(digits[i])
    ensures CallPhone(tag + digits + "\n" + rest) == digits
  {
    var before := tag + digits;
    assert '\n' !in before by {
      forall i | 0 <= i < |before| ensures before[i] != '\n' {
        if i >= 7 {
          assert before[i] == digits[i - 7];
        }
      }
    }
    ReplaceFirstAfter(before, "\n", rest, "");
    var s := before + "\n" + rest;
    assert Slice(s, 7, |before|) == digits by {
      assert s[7..|before|] == digits;
    }
    KeepDigitsOfDigits(digits);
  }

  /**
   * With no line break, `indexOf` gives -1 and the slice stops one character
   * short of the end: the description's last character is never read.
   */
  lemma PhoneWithoutLineBreak(description: string)
    requires '\n' !in description && |description| >= 8
    ensures CallPhone(description) == KeepDigits(description[7..|description| - 1])
  {
    IndexOfChar(description, '\n');
  }

  /** `mapCallData`: the common fields, then each field from the package in use. */
  function CallFields(data: DetailData, getDurationString: JsValue -> JsValue): CallObj
    requires CallMappable(data)
  {
    var record := data.record.value;
    var e := data.isEnterprise;
    CallObj(
      Get(record, "CreatedDate"),
      Get(record, "CreatedBy.Name"),
      Get(record, "CreatedById"),
      Get(record, "LastModifiedBy.Name"),
      Get(record, "LastModifiedById"),
      Get(record, "LastModifiedDate"),
      data.callRecId,
      data.callRecName,
      data.callRecType,
      getDurationString(DurationArgument(record, e)),
      if e then Get(record, "DS_Denali__Subject__c") else Get(record, "Subject"),
      if e then Get(record, "DS_Denali__Date__c") else Get(record, "ActivityDate"),
      if e then Get(record, "DS_Denali__Phone__c") else Str(CallPhone(Get(record, DESCRIPTION).s)),
      if e then Get(record, "DS_Denali__Owner__r.Name") else Get(record, "Owner.Name"),
      if e then Get(record, "DS_Denali__Owner__c") else Get(record, "OwnerId"),
      if e then Get(record, "DS_Denali__Status__c") else Get(record, "Status"),
      if e then Get(record, "DS_Denali__Notes__c") else Get(record, DESCRIPTION),
      if e then Get(record, "DS_Denali__Recording_ID__c") else Get(record, "DialSource__Recording_ID_DS__c"))
  }

  /**
   * Outside the enterprise package the phone holds digits only, the notes are
   * the whole description, and a labelled first line gives its number back.
   */
  lemma StandardCallPhone(data: DetailData, getDurationString: JsValue -> JsValue)
    requires CallMappable(data) && !data.isEnterprise
    ensures var c := CallFields(data, getDurationString);
      c.phone.Str? && (forall i | 0 <= i < |c.phone.s| :: IsDigit(c.phone.s[i]))
      && c.notes == Get(data.record.value, DESCRIPTION)
  {
  }

  /**
   * The fields every package shares are the same whichever package is in
   * use; only the package-specific fields differ.
   */
  lemma CallFieldsCommon(data: DetailData, getDurationString: JsValue -> JsValue)
    requires data.record.Some? && Get(data.record.value, DESCRIPTION).Str?
    ensures var a := CallFields(data.(isEnterprise := true), getDurationString);
      var b := CallFields(data.(isEnterprise := false), getDurationString);
      a.createdDate == b.createdDate && a.createdBy == b.createdBy && a.createdById == b.createdById
      && a.lastModifiedBy == b.lastModifiedBy && a.lastModifiedById == b.lastModifiedById
      && a.lastModifiedDate == b.lastModifiedDate
      && a.callRecId == data.callRecId && a.callRecName == data.callRecName && a.callRecType == data.callRecType
      && b.callRecId == data.callRecId && b.callRecName == data.callRecName && b.callRecType == data.callRecType
  {
  }

  // ---------------------------------------------------------------------------
  // Navigation targets

  /** What a navigation handler does: nothing, close the modal, or open a record. */
  datatype Navigation = NoNavigation | CloseModal | Navigate(targetId: JsValue, targetType: JsValue)

  const USER: JsValue := Str("User")

  // The recording page, written in pieces: the page path, the package prefix
  // that an enterprise org swaps, and the page with its query parameter.
  const APEX_PATH: string := "/apex/"
  const STANDARD_PREFIX: string := "DialSource__"
  const ENTERPRISE_PREFIX: string := "DS_Denali__"
  const RECORDING_PAGE: string := "PlayRecording?id="

  /** The page path holds no `D`, so the package prefix is first found right after it. */
  lemma NoPrefixInPath()
    ensures STANDARD_PREFIX[0] !in APEX_PATH
  {
    assert STANDARD_PREFIX[0] == 'D';
    forall i | 0 <= i < |APEX_PATH| ensures APEX_PATH[i] != 'D' {
    }
  }

  // ---------------------------------------------------------------------------
  // The component

  class ConversationViewHistoryDetailComponent {
    var recId: JsValue
    var recordId: JsValue
    /** The item's type (`type`). */
    var convoType: JsValue

    var recordObj: Record
    var recordItems: seq<Item>
    /** The last wire response, or none before the first. */
    var wiredConvo: Option<WireValue>

    var callObj: CallObj
    const callParentType: string

    var isCall: bool
    var isEmail: bool
    var isSMS: bool
    var isCustom: bool
    var isZoom: bool

    var isEnterprise: bool
    var isLoading: bool

    /** The field initialisers, with the public properties the parent sets. */
    constructor (recId: JsValue, recordId: JsValue, convoType: JsValue)
      ensures this.recId == recId && this.recordId == recordId && this.convoType == convoType
      ensures recordObj == map[] && recordItems == [] && wiredConvo == None && callObj == EMPTY_CALL
      ensures callParentType == "DS_Denali__DialSource_Action__c"
      ensures Flags() == TypeFlags(false, false, false, false, false)
      ensures isEnterprise && isLoading
    {
      this.recId := recId;
      this.recordId := recordId;
      this.convoType := convoType;
      recordObj := map[];
      recordItems := [];
      wiredConvo := None;
      callObj := EMPTY_CALL;
      callParentType := "DS_Denali__DialSource_Action__c";
      isCall := false;
      isEmail := false;
      isSMS := false;
      isCustom := false;
      isZoom := false;
      isEnterprise := true;
      isLoading := true;
    }

    /** The type flags together. */
    function Flags(): TypeFlags
      reads this`isCall, this`isEmail, this`isSMS, this`isCustom, this`isZoom
    {
      TypeFlags(isCall, isEmail, isSMS, isCustom, isZoom)
    }

    /** `customStepTitle`: the record type's name, as a string, then ` Details`. */
    function CustomStepTitle(): (title: string)
      reads this`recordObj
      ensures |title| >= 8 && title[|title| - 8..] == " Details"
      ensures title[..|title| - 8] == StringOf(Get(recordObj, "RecordType.Name"))
    {
      StringOf(Get(recordObj, "RecordType.Name")) + " Details"
    }

    /** `setConvoType`: raise the flag of the item's type. */
    method SetConvoType()
      modifies this`isEmail, this`isCall, this`isSMS, this`isCustom
      ensures Flags() == WithConvoType(old(Flags()), convoType)
    {
      if convoType == Str("Email") {
        isEmail := true;
        return;
      }
      if convoType == Str("Call") {
        isCall := true;
        return;
      }
      if convoType == Str("SMS") {
        isSMS := true;
        return;
      }
      if convoType == Str("Custom") {
        isCustom := true;
        return;
      }
    }

    /** `mapCallData`: the package flag, then every call field, one by one. */
    method MapCallData(data: DetailData, getDurationString: JsValue -> JsValue)
      requires CallMappable(data)
      modifies this`isEnterprise, this`callObj
      ensures isEnterprise == data.isEnterprise
      ensures callObj == CallFields(data, getDurationString)
    {
      var record := data.record.value;
      isEnterprise := data.isEnterprise;

      callObj := callObj.(createdDate := Get(record, "CreatedDate"));
      callObj := callObj.(createdBy := Get(record, "CreatedBy.Name"));
      callObj := callObj.(createdById := Get(record, "CreatedById"));
      callObj := callObj.(lastModifiedBy := Get(record, "LastModifiedBy.Name"));
      callObj := callObj.(lastModifiedById := Get(record, "LastModifiedById"));
      callObj := callObj.(lastModifiedDate := Get(record, "LastModifiedDate"));
      callObj := callObj.(callRecId := data.callRecId);
      callObj := callObj.(callRecName := data.callRecName);
      callObj := callObj.(callRecType := data.callRecType);

      var duration := DurationArgument(record, isEnterprise);
      callObj := callObj.(callDuration := getDurationString(duration));

      if isEnterprise {
        callObj := callObj.(subject := Get(record, "DS_Denali__Subject__c"), date := Get(record, "DS_Denali__Date__c"),
          phone := Get(record, "DS_Denali__Phone__c"), ownerName := Get(record, "DS_Denali__Owner__r.Name"),
          ownerId := Get(record, "DS_Denali__Owner__c"), status := Get(record, "DS_Denali__Status__c"),
          notes := Get(record, "DS_Denali__Notes__c"), recordingId := Get(record, "DS_Denali__Recording_ID__c"));
      } else {
        var description := Get(record, DESCRIPTION);
        callObj := callObj.(subject := Get(record, "Subject"), date := Get(record, "ActivityDate"),
          phone := Str(CallPhone(description.s)), ownerName := Get(record, "Owner.Name"),
          ownerId := Get(record, "OwnerId"), status := Get(record, "Status"),
          notes := description, recordingId := Get(record, "DialSource__Recording_ID_DS__c"));
      }
    }

    /**
     * The record branch of `wiredGetRecordInfo`: the record replaces the
     * previous one, a call's fields are mapped or an email's items re-tagged,
     * and the type flag goes up.
     */
    method ReceiveRecord(data: DetailData, getDurationString: JsValue -> JsValue)
      requires data.record.Some?
      requires KindOf(convoType) == Some(CallKind) ==> CallMappable(data)
      modifies this`recordObj, this`isEnterprise, this`callObj, this`recordItems
      modifies this`isEmail, this`isCall, this`isSMS, this`isCustom
      ensures recordObj == data.record.value
      ensures KindOf(convoType) == Some(CallKind) ==>
        callObj == CallFields(data, getDurationString) && isEnterprise == data.isEnterprise
      ensures KindOf(convoType) != Some(CallKind) ==> callObj == old(callObj) && isEnterprise == old(isEnterprise)
      ensures recordItems == if KindOf(convoType) == Some(EmailKind) then Retagged(data.items, recordId) else old(recordItems)
      ensures Flags() == WithConvoType(old(Flags()), convoType)
    {
      recordObj := data.record.value;
      var kind := KindOf(convoType);
      if kind == Some(CallKind) {
        MapCallData(data, getDurationString);
      } else if kind == Some(EmailKind) {
        recordItems := Retagged(data.items, recordId);
      }
      SetConvoType();
    }

    /**
     * `wiredGetRecordInfo`: a response with a record is taken in, and any
     * response ends the loading; a response without a record changes nothing
     * else.
     */
    method WiredGetRecordInfo(value: WireValue, getDurationString: JsValue -> JsValue)
      requires HasRecord(value) && KindOf(convoType) == Some(CallKind) ==> CallMappable(value.data.value)
      modifies this`wiredConvo, this`recordObj, this`isEnterprise, this`callObj, this`recordItems
      modifies this`isEmail, this`isCall, this`isSMS, this`isCustom, this`isLoading
      ensures wiredConvo == Some(value) && !isLoading
      ensures HasRecord(value) ==> recordObj == value.data.value.record.value
      ensures HasRecord(value) && KindOf(convoType) == Some(CallKind) ==>
        callObj == CallFields(value.data.value, getDurationString) && isEnterprise == value.data.value.isEnterprise
      ensures HasRecord(value) && KindOf(convoType) == Some(EmailKind) ==>
        recordItems == Retagged(value.data.value.items, recordId)
      ensures HasRecord(value) ==> Flags() == WithConvoType(old(Flags()), convoType)
      ensures !HasRecord(value) ==>
        recordObj == old(recordObj) && callObj == old(callObj) && isEnterprise == old(isEnterprise)
        && recordItems == old(recordItems) && Flags() == old(Flags())
    {
      wiredConvo := Some(value);
      if HasRecord(value) {
        ReceiveRecord(value.data.value, getDurationString);
      }
      // An error only raises a toast, which is not part of this model.
      isLoading := false;
    }

    /**
     * `navigateToOwner`: the call's owner when it is set, else the record's
     * owner; with neither there is nowhere to go.
     */
    function NavigateToOwner(): (r: Navigation)
      reads this`callObj, this`recordObj
      ensures r != CloseModal
      ensures r.Navigate? <==> Truthy(callObj.ownerId) || Truthy(Get(recordObj, "OwnerId"))
      ensures r.Navigate? ==> r.targetType == USER && Truthy(r.targetId)
      ensures Truthy(callObj.ownerId) ==> r == Navigate(callObj.ownerId, USER)
      ensures !Truthy(callObj.ownerId) && Truthy(Get(recordObj, "OwnerId")) ==>
        r == Navigate(Get(recordObj, "OwnerId"), USER)
    {
      var ownerId := if Truthy(callObj.ownerId) then callObj.ownerId else Get(recordObj, "OwnerId");
      if Truthy(ownerId) then Navigate(ownerId, USER) else NoNavigation
    }

    /**
     * `navigateToCallObj`: the modal closes when the call's parent is the
     * record already on screen, and opens that parent otherwise.
     */
    function NavigateToCallObj(): (r: Navigation)
      reads this`recordId, this`callObj
      ensures r == CloseModal <==> recordId == callObj.callRecId
      ensures r != CloseModal ==> r == Navigate(callObj.callRecId, callObj.callRecType)
    {
      if recordId == callObj.callRecId then CloseModal
      else Navigate(callObj.callRecId, callObj.callRecType)
    }

    /**
     * `openRecording`'s address: the recording page of the record, under the
     * enterprise package's prefix when the org is enterprise.
     */
    function RecordingUrl(): (url: string)
      reads this`recordObj, this`isEnterprise
      ensures url == APEX_PATH + (if isEnterprise then ENTERPRISE_PREFIX else STANDARD_PREFIX)
                     + RECORDING_PAGE + StringOf(Get(recordObj, "Id"))
    {
      var rest := RECORDING_PAGE + StringOf(Get(recordObj, "Id"));
      var url := APEX_PATH + STANDARD_PREFIX + rest;
      NoPrefixInPath();
      ReplaceFirstAfter(APEX_PATH, STANDARD_PREFIX, rest, ENTERPRISE_PREFIX);
      if isEnterprise then ReplaceFirst(url, STANDARD_PREFIX, ENTERPRISE_PREFIX) else url
    }
  }
}
