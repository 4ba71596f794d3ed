/** The per-user store of src/utils/storage.ts. `localStorage` is a map from
    keys to items; `JSON.stringify`/`JSON.parse` are the identity, so an item
    is the parsed value itself. Every write operation reads the user's record,
    builds the updated record and writes it back under the user's key. */
module Storage {
  import opened Types
  import opened Grouping
  import opened Lists

  /** What is stored for one user. */
  datatype UserData = UserData(appliances: seq<Appliance>, billSettings: BillSettings, savedBills: seq<SavedBill>)

  /** A value kept in `localStorage`, as parsed back: a user record, or the
      signed-in user under the session key. */
  datatype Item = Record(data: UserData) | Session(user: User)

  /** What `exportUserData` serialises: the record plus an export date and a version. */
  datatype Exported = Exported(
    appliances: seq<Appliance>,
    billSettings: BillSettings,
    savedBills: seq<SavedBill>,
    exportDate: string,
    version: string)

  /** The fields `importUserData` reads from the parsed JSON; a missing field is None. */
  datatype Parsed = Parsed(
    appliances: Option<seq<Appliance>>,
    billSettings: Option<BillSettings>,
    savedBills: Option<seq<SavedBill>>)

  datatype BillStatistics = BillStatistics(
    totalBills: nat,
    averageMonthly: real,
    totalYearly: real,
    highestBill: Option<SavedBill>,
    lowestBill: Option<SavedBill>)

  const StoragePrefix: string := "powerpredict_"
  const ExportVersion: string := "2.0"

  /** The key of a user's record. */
  function UserKey(email: string): string {
    StoragePrefix + "user_" + email
  }

  /** The key of the signed-in user, which the app reads and writes directly. */
  const CurrentUserKey: string := StoragePrefix + "current_user"

  /** getDefaultBillSettings. */
  function DefaultBillSettings(): BillSettings {
    BillSettings("National Average", false, Summer, Medium, Average)
  }

  /** The record a write operation starts from when the user has none. */
  function OrEmpty(r: Option<UserData>): UserData {
    match r
    case Some(d) => d
    case None => UserData([], DefaultBillSettings(), [])
  }

  /** getUserData: the user's record, or null when there is none. */
  function ReadUser(items: map<string, Item>, email: string): Option<UserData> {
    var key := UserKey(email);
    if key in items && items[key].Record? then Some(items[key].data) else None
  }

  /** getUserBills: the saved bills of the record, or none without one. */
  function UserBills(items: map<string, Item>, email: string): seq<SavedBill> {
    match ReadUser(items, email)
    case Some(d) => d.savedBills
    case None => []
  }

  /** `localStorage.setItem(userKey, JSON.stringify(d))`. */
  function PutUser(items: map<string, Item>, email: string, d: UserData): map<string, Item> {
    items[UserKey(email) := Record(d)]
  }

  /** The store after saveUserAppliances. */
  function AppliancesSaved(items: map<string, Item>, email: string, appliances: seq<Appliance>): map<string, Item> {
    PutUser(items, email, OrEmpty(ReadUser(items, email)).(appliances := appliances))
  }

  /** The store after saveUserBillSettings. */
  function SettingsSaved(items: map<string, Item>, email: string, settings: BillSettings): map<string, Item> {
    PutUser(items, email, OrEmpty(ReadUser(items, email)).(billSettings := settings))
  }

  /** The store after saveUserBill: the bill goes in front. */
  function BillSaved(items: map<string, Item>, email: string, bill: SavedBill): map<string, Item> {
    var d := OrEmpty(ReadUser(items, email));
    PutUser(items, email, d.(savedBills := [bill] + d.savedBills))
  }

  /** The filter `bill => bill.id !== billId`. */
  function BillIdIsNot(billId: string): SavedBill -> bool {
    (b: SavedBill) => b.id != billId
  }

  /** The store after deleteUserBill. */
  function BillDeleted(items: map<string, Item>, email: string, billId: string): map<string, Item> {
    match ReadUser(items, email)
    case None => items
    case Some(d) => PutUser(items, email, d.(savedBills := Filter(d.savedBills, BillIdIsNot(billId))))
  }

  /** `bills.map(bill => bill.id === billId ? { ...updated, updatedAt: now } : bill)`. */
  function ReplaceBill(bills: seq<SavedBill>, billId: string, updated: SavedBill, now: int): (r: seq<SavedBill>)
    ensures |r| == |bills|
    decreases |bills|
  {
    if bills == [] then []
    else [if bills[0].id == billId then updated.(updatedAt := now) else bills[0]]
         + ReplaceBill(bills[1..], billId, updated, now)
  }

  /** The store after updateUserBill at time `now`. */
  function BillUpdated(items: map<string, Item>, email: string, billId: string, updated: SavedBill, now: int): map<string, Item> {
    match ReadUser(items, email)
    case None => items
    case Some(d) => PutUser(items, email, d.(savedBills := ReplaceBill(d.savedBills, billId, updated, now)))
  }

  /** exportUserData with the export date `exportDate`. */
  function ExportUserData(items: map<string, Item>, email: string, exportDate: string): Option<Exported> {
    match ReadUser(items, email)
    case None => None
    case Some(d) => Some(Exported(d.appliances, d.billSettings, d.savedBills, exportDate, ExportVersion))
  }

  /** `JSON.parse` of the text of an export, as the fields the importer reads. */
  function Reparse(e: Exported): Parsed {
    Parsed(Some(e.appliances), Some(e.billSettings), Some(e.savedBills))
  }

  /** The record importUserData stores, or None when it refuses the input;
      `json` is None when `JSON.parse` throws. */
  function ImportedRecord(json: Option<Parsed>): Option<UserData> {
    match json
    case None => None
    case Some(p) =>
      if p.appliances.None? || p.billSettings.None? then None
      else Some(UserData(p.appliances.value, p.billSettings.value,
                         if p.savedBills.Some? then p.savedBills.value else []))
  }

  /** getBillStatistics over a list of bills. */
  function Statistics(bills: seq<SavedBill>): BillStatistics {
    if |bills| == 0 then BillStatistics(0, 0.0, 0.0, None, None)
    else
      BillStatistics(|bills|, Mean(bills, BillMonthly), Mean(bills, BillMonthly) * 12.0,
                     Some(Highest(bills)), Some(Lowest(bills)))
  }

  /** The bill that `reduce` keeps with the comparison `>` on the monthly amount. */
  function Highest(bills: seq<SavedBill>): SavedBill
    requires |bills| > 0
  {
    bills[MaxIndex(bills, BillMonthly)]
  }

  /** The bill that `reduce` keeps with the comparison `<` on the monthly amount. */
  function Lowest(bills: seq<SavedBill>): SavedBill
    requires |bills| > 0
  {
    bills[MinIndex(bills, BillMonthly)]
  }

  /** The browser's `localStorage`, holding the records of every user. */
  class Store {
    var items: map<string, Item>

    constructor ()
      ensures items == map[]
    {
      items := map[];
    }

    method SaveUserAppliances(email: string, appliances: seq<Appliance>)
      modifies this
      ensures items == AppliancesSaved(old(items), email, appliances)
    {
      var existing := OrEmpty(ReadUser(items, email));
      items := items[UserKey(email) := Record(existing.(appliances := appliances))];
    }

    method SaveUserBillSettings(email: string, billSettings: BillSettings)
      modifies this
      ensures items == SettingsSaved(old(items), email, billSettings)
    {
      var existing := OrEmpty(ReadUser(items, email));
      items := items[UserKey(email) := Record(existing.(billSettings := billSettings))];
    }

    method SaveUserBill(email: string, bill: SavedBill)
      modifies this
      ensures items == BillSaved(old(items), email, bill)
    {
      var existing := OrEmpty(ReadUser(items, email));
      var updatedBills := [bill] + existing.savedBills;
      items := items[UserKey(email) := Record(existing.(savedBills := updatedBills))];
    }

    method DeleteUserBill(email: string, billId: string)
      modifies this
      ensures items == BillDeleted(old(items), email, billId)
    {
      var existing := ReadUser(items, email);
      if existing.None? {
        return;
      }
      var updatedBills := Filter(existing.value.savedBills, BillIdIsNot(billId));
      items := items[UserKey(email) := Record(existing.value.(savedBills := updatedBills))];
    }

    method UpdateUserBill(email: string, billId: string, updatedBill: SavedBill, now: int)
      modifies this
      ensures items == BillUpdated(old(items), email, billId, updatedBill, now)
    {
      var existing := ReadUser(items, email);
      if existing.None? {
        return;
      }
      var updatedBills := ReplaceBill(existing.value.savedBills, billId, updatedBill, now);
      items := items[UserKey(email) := Record(existing.value.(savedBills := updatedBills))];
    }

    /** clearCurrentUserSession. */
    method ClearCurrentUserSession()
      modifies this
      ensures items == old(items) - {CurrentUserKey}
    {
      items := items - {CurrentUserKey};
    }

    /** The app's `localStorage.setItem("powerpredict_current_user", ...)`. */
    method SetCurrentUser(user: User)
      modifies this
      ensures items == old(items)[CurrentUserKey := Session(user)]
    {
      items := items[CurrentUserKey := Session(user)];
    }

    method ImportUserData(email: string, json: Option<Parsed>) returns (ok: bool)
      modifies this
      ensures ok == ImportedRecord(json).Some?
      ensures ok ==> items == PutUser(old(items), email, ImportedRecord(json).value)
      ensures !ok ==> items == old(items)
    {
      var record := ImportedRecord(json);
      if record.None? {
        return false;
      }
      items := items[UserKey(email) := Record(record.value)];
      return true;
    }
  }

  // ---------------------------------------------------------------------
  // Keys

  /** Different users have different keys. */
  lemma UserKeyInjective(a: string, b: string)
    ensures UserKey(a) == UserKey(b) ==> a == b
  {
    if UserKey(a) == UserKey(b) {
      assert a == UserKey(a)[|StoragePrefix + "user_"|..];
      assert b == UserKey(b)[|StoragePrefix + "user_"|..];
    }
  }

  /** The session key is "powerpredict_current_user" and is no user's key. */
  lemma SessionKeyIsNoUserKey(email: string)
    ensures CurrentUserKey == "powerpredict_current_user"
    ensures UserKey(email) != CurrentUserKey
  {
    assert UserKey(email)[13] == 'u';
    assert CurrentUserKey[13] == 'c';
  }

  /** Signing in or clearing the session leaves every user's record as it was. */
  lemma SessionKeepsRecords(items: map<string, Item>, user: User, email: string)
    ensures ReadUser(items - {CurrentUserKey}, email) == ReadUser(items, email)
    ensures ReadUser(items[CurrentUserKey := Session(user)], email) == ReadUser(items, email)
  {
    SessionKeyIsNoUserKey(email);
  }

  // ---------------------------------------------------------------------
  // Writing a record

  /** Writing a user's record changes that record and no other key. */
  lemma {:induction false} ReadAfterPut(items: map<string, Item>, email: string, d: UserData, other: string)
    ensures ReadUser(PutUser(items, email, d), other) == if other == email then Some(d) else ReadUser(items, other)
    ensures PutUser(items, email, d) - {UserKey(email)} == items - {UserKey(email)}
  {
    UserKeyInjective(email, other);
  }

  /** saveUserAppliances replaces the appliances, keeps the settings and the
      bills (defaults without a record) and no other user's record changes. */
  lemma AppliancesSavedSpec(items: map<string, Item>, email: string, appliances: seq<Appliance>, other: string)
    ensures ReadUser(AppliancesSaved(items, email, appliances), email).Some?
    ensures ReadUser(AppliancesSaved(items, email, appliances), email).value.appliances == appliances
    ensures ReadUser(AppliancesSaved(items, email, appliances), email).value.billSettings
         == if ReadUser(items, email).Some? then ReadUser(items, email).value.billSettings else DefaultBillSettings()
    ensures UserBills(AppliancesSaved(items, email, appliances), email) == UserBills(items, email)
    ensures other != email ==> ReadUser(AppliancesSaved(items, email, appliances), other) == ReadUser(items, other)
  {
    ReadAfterPut(items, email, OrEmpty(ReadUser(items, email)).(appliances := appliances), other);
    ReadAfterPut(items, email, OrEmpty(ReadUser(items, email)).(appliances := appliances), email);
  }

  /** saveUserBillSettings replaces the settings and keeps the rest. */
  lemma SettingsSavedSpec(items: map<string, Item>, email: string, settings: BillSettings, other: string)
    ensures ReadUser(SettingsSaved(items, email, settings), email).Some?
    ensures ReadUser(SettingsSaved(items, email, settings), email).value.billSettings == settings
    ensures ReadUser(SettingsSaved(items, email, settings), email).value.appliances
         == if ReadUser(items, email).Some? then ReadUser(items, email).value.appliances else []
    ensures UserBills(SettingsSaved(items, email, settings), email) == UserBills(items, email)
    ensures other != email ==> ReadUser(SettingsSaved(items, email, settings), other) == ReadUser(items, other)
  {
    ReadAfterPut(items, email, OrEmpty(ReadUser(items, email)).(billSettings := settings), other);
    ReadAfterPut(items, email, OrEmpty(ReadUser(items, email)).(billSettings := settings), email);
  }

  /** saveUserBill puts the new bill in front of the saved ones. */
  lemma BillSavedSpec(items: map<string, Item>, email: string, bill: SavedBill, other: string)
    ensures UserBills(BillSaved(items, email, bill), email) == [bill] + UserBills(items, email)
    ensures ReadUser(BillSaved(items, email, bill), email).value.appliances
         == if ReadUser(items, email).Some? then ReadUser(items, email).value.appliances else []
    ensures other != email ==> ReadUser(BillSaved(items, email, bill), other) == ReadUser(items, other)
  {
    var d := OrEmpty(ReadUser(items, email));
    ReadAfterPut(items, email, d.(savedBills := [bill] + d.savedBills), other);
    ReadAfterPut(items, email, d.(savedBills := [bill] + d.savedBills), email);
  }

  /** deleteUserBill keeps exactly the bills with another id, in order; with
      no record it changes nothing, and deleting twice is deleting once. */
  lemma BillDeletedSpec(items: map<string, Item>, email: string, billId: string, other: string)
    ensures ReadUser(items, email).None? ==> BillDeleted(items, email, billId) == items
    ensures UserBills(BillDeleted(items, email, billId), email) == Filter(UserBills(items, email), BillIdIsNot(billId))
    ensures forall b :: b in UserBills(BillDeleted(items, email, billId), email)
                    <==> b in UserBills(items, email) && b.id != billId
    ensures BillDeleted(BillDeleted(items, email, billId), email, billId) == BillDeleted(items, email, billId)
    ensures other != email ==> ReadUser(BillDeleted(items, email, billId), other) == ReadUser(items, other)
  {
    FilterMembers(UserBills(items, email), BillIdIsNot(billId));
    match ReadUser(items, email)
    case None =>
    case Some(d) =>
      var kept := Filter(d.savedBills, BillIdIsNot(billId));
      ReadAfterPut(items, email, d.(savedBills := kept), other);
      ReadAfterPut(items, email, d.(savedBills := kept), email);
      var after := PutUser(items, email, d.(savedBills := kept));
      FilterIdempotent(d.savedBills, BillIdIsNot(billId));
      ReadAfterPut(after, email, d.(savedBills := kept), email);
      assert PutUser(after, email, d.(savedBills := kept)) == after;
  }

  /** Every bill with the id becomes the update stamped with `now`; the others
      stay where they are. */
  lemma {:induction false} ReplaceBillSpec(bills: seq<SavedBill>, billId: string, updated: SavedBill, now: int)
    ensures forall i :: 0 <= i < |bills| ==>
              ReplaceBill(bills, billId, updated, now)[i]
              == if bills[i].id == billId then updated.(updatedAt := now) else bills[i]
    decreases |bills|
  {
    if bills != [] {
      ReplaceBillSpec(bills[1..], billId, updated, now);
    }
  }

  /** An id that no bill has leaves the list as it is. */
  lemma ReplaceMissingBill(bills: seq<SavedBill>, billId: string, updated: SavedBill, now: int)
    requires forall i :: 0 <= i < |bills| ==> bills[i].id != billId
    ensures ReplaceBill(bills, billId, updated, now) == bills
  {
    ReplaceBillSpec(bills, billId, updated, now);
  }

  /** updateUserBill changes only the bill with the id and only that record. */
  lemma BillUpdatedSpec(items: map<string, Item>, email: string, billId: string, updated: SavedBill, now: int, other: string)
    ensures ReadUser(items, email).None? ==> BillUpdated(items, email, billId, updated, now) == items
    ensures UserBills(BillUpdated(items, email, billId, updated, now), email)
         == ReplaceBill(UserBills(items, email), billId, updated, now)
    ensures other != email ==> ReadUser(BillUpdated(items, email, billId, updated, now), other) == ReadUser(items, other)
  {
    match ReadUser(items, email)
    case None =>
    case Some(d) =>
      var bills := ReplaceBill(d.savedBills, billId, updated, now);
      ReadAfterPut(items, email, d.(savedBills := bills), other);
      ReadAfterPut(items, email, d.(savedBills := bills), email);
  }

  // ---------------------------------------------------------------------
  // Export and import

  /** importUserData accepts exactly the parsed input with appliances and
      settings, and stores them with the bills, or none when they are absent. */
  lemma ImportedRecordSpec(json: Option<Parsed>)
    ensures ImportedRecord(json).None?
        <==> json.None? || json.value.appliances.None? || json.value.billSettings.None?
    ensures ImportedRecord(json).Some? ==>
              ImportedRecord(json).value.appliances == json.value.appliances.value
              && ImportedRecord(json).value.billSettings == json.value.billSettings.value
              && ImportedRecord(json).value.savedBills
                 == if json.value.savedBills.Some? then json.value.savedBills.value else []
  {
  }

  /** There is an export exactly when there is a record; importing the export
      gives back the record, and writing it leaves the store as it was. */
  lemma ExportImportRoundTrip(items: map<string, Item>, email: string, exportDate: string)
    ensures ExportUserData(items, email, exportDate).Some? <==> ReadUser(items, email).Some?
    ensures ExportUserData(items, email, exportDate).Some? ==>
              ExportUserData(items, email, exportDate).value.version == "2.0"
              && ImportedRecord(Some(Reparse(ExportUserData(items, email, exportDate).value))) == ReadUser(items, email)
              && PutUser(items, email, ReadUser(items, email).value) == items
  {
  }

  // ---------------------------------------------------------------------
  // Statistics

  /** The statistics of no bills are zeros and no bills. */
  lemma StatisticsOfNoBills(bills: seq<SavedBill>)
    requires |bills| == 0
    ensures Statistics(bills) == BillStatistics(0, 0.0, 0.0, None, None)
  {
  }

  /** Otherwise they count the bills, the average times the count is the sum
      of the monthly bills, the average lies between the lowest and the
      highest bill, and the yearly total is twelve times it. */
  lemma StatisticsMean(bills: seq<SavedBill>)
    requires |bills| > 0
    ensures Statistics(bills).totalBills == |bills|
    ensures Statistics(bills).averageMonthly * |bills| as real == Total(bills, BillMonthly)
    ensures BillMonthly(Lowest(bills)) <= Statistics(bills).averageMonthly <= BillMonthly(Highest(bills))
    ensures Statistics(bills).totalYearly == 12.0 * Statistics(bills).averageMonthly
  {
    MeanTimesCount(bills, BillMonthly, Statistics(bills).averageMonthly);
    assert BillMonthly(Lowest(bills)) <= Statistics(bills).averageMonthly <= BillMonthly(Highest(bills)) by {
      MeanBetween(bills, BillMonthly, BillMonthly(Lowest(bills)), BillMonthly(Highest(bills)));
    }
  }

  /** A user without a record has no bills and empty statistics. */
  lemma NoRecordNoStatistics(items: map<string, Item>, email: string)
    requires ReadUser(items, email).None?
    ensures UserBills(items, email) == []
    ensures Statistics(UserBills(items, email)).highestBill.None?
    ensures Statistics(UserBills(items, email)).averageMonthly == 0.0
  {
  }
}
