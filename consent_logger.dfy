/**
 * app/utils/consent-logger.ts: the SMS consent audit log. Each consent change
 * is appended to a JSON file named after the sanitised phone number and the
 * UTC date; the history of a phone gathers every file whose name starts with
 * that number and lists the records newest first.
 *
 * The `consent-logs` directory is a map from file name to content. The clock
 * is an input (`Instant`: the ISO text and its millisecond value), and so are
 * the directory listing and whether the storage calls succeed.
 */
module ConsentLogger {
  import opened Wrappers
  import opened Text
  import opened Sorting

  datatype ConsentStatus = OptedIn | OptedOut

  datatype ConsentMethod = WebForm | BySms

  /** `new Date().toISOString()` together with the instant it names. */
  datatype Instant = Instant(iso: string, ms: int)

  datatype ConsentRecord = ConsentRecord(phoneNumber: string, missionaryType: string, timestamp: Instant,
                                         consentText: string, ipAddress: string, channel: ConsentMethod,
                                         status: ConsentStatus)

  /** A file of the log: a JSON array of records, text that is not JSON, or JSON that is not an array. */
  datatype FileContent = Records(records: seq<ConsentRecord>) | NotJson | NotAnArray

  const ConsentText: string :=
    "By signing up for SMS notifications, you consent to receive automated text messages about dinner "
    + "appointments from our system. Message frequency varies based on appointment scheduling. Message & "
    + "data rates may apply. Reply STOP at any time to opt out. This is not a condition of service."

  /** Removing the `+` signs and then every non-digit leaves exactly the digits of the input. */
  function SanitizePhone(phone: string): (r: string)
    ensures r == KeepDigits(phone)
  {
    RemoveNonDigitFirst(phone, '+');
    KeepDigits(RemoveChar(phone, '+'))
  }

  /** `${sanitizedPhone}_${timestamp.split('T')[0]}.json`. */
  function FileName(phone: string, at: Instant): string
  {
    SanitizePhone(phone) + "_" + BeforeFirst(at.iso, 'T') + ".json"
  }

  /** A file name determines the phone digits and the date it was built from. */
  lemma FileNameDecodes(phone1: string, at1: Instant, phone2: string, at2: Instant)
    requires FileName(phone1, at1) == FileName(phone2, at2)
    ensures KeepDigits(phone1) == KeepDigits(phone2)
    ensures BeforeFirst(at1.iso, 'T') == BeforeFirst(at2.iso, 'T')
  {
    DecodeName(SanitizePhone(phone1), BeforeFirst(at1.iso, 'T'), SanitizePhone(phone2), BeforeFirst(at2.iso, 'T'));
  }

  lemma DecodeName(a: string, d1: string, b: string, d2: string)
    requires forall i :: 0 <= i < |a| ==> IsDigit(a[i])
    requires forall i :: 0 <= i < |b| ==> IsDigit(b[i])
    requires a + "_" + d1 + ".json" == b + "_" + d2 + ".json"
    ensures a == b && d1 == d2
  {
    assert a + "_" + d1 + ".json" == a + "_" + (d1 + ".json");
    assert b + "_" + d2 + ".json" == b + "_" + (d2 + ".json");
    SplitAtUnderscore(a, d1 + ".json", b, d2 + ".json");
    assert d1 == (d1 + ".json")[..|d1|];
    assert d2 == (d2 + ".json")[..|d2|];
  }

  lemma SplitAtUnderscore(a: string, r1: string, b: string, r2: string)
    requires forall i :: 0 <= i < |a| ==> IsDigit(a[i])
    requires forall i :: 0 <= i < |b| ==> IsDigit(b[i])
    requires a + "_" + r1 == b + "_" + r2
    ensures a == b && r1 == r2
  {
    UnderscoreAfterDigits(a, r1);
    UnderscoreAfterDigits(b, r2);
    var f := a + "_" + r1;
    assert a == f[..|a|];
    assert b == f[..|b|];
    assert r1 == f[|a| + 1..];
    assert r2 == (b + "_" + r2)[|b| + 1..];
  }

  /** The index of the first `c` in `s`, or `|s|` when there is none. */
  function IndexOf(s: string, c: char): (k: nat)
    ensures k <= |s|
  {
    if s == [] then 0
    else if s[0] == c then 0
    else 1 + IndexOf(s[1..], c)
  }

  lemma {:induction false} UnderscoreAfterDigits(digits: string, rest: string)
    requires forall i :: 0 <= i < |digits| ==> IsDigit(digits[i])
    ensures IndexOf(digits + "_" + rest, '_') == |digits|
  {
    if digits != [] {
      assert (digits + "_" + rest)[1..] == digits[1..] + "_" + rest;
      UnderscoreAfterDigits(digits[1..], rest);
    }
  }

  /** Every file of a phone is found by that phone's history, whatever formatting the number was given in. */
  lemma FileNameStartsWithPhone(phone: string, at: Instant)
    ensures StartsWith(FileName(phone, at), SanitizePhone(phone))
  {
    var f := FileName(phone, at);
    assert f[..|SanitizePhone(phone)|] == SanitizePhone(phone);
  }

  /**
   * The history selects files by prefix only, so the history of a number also
   * gathers the files of every longer number that begins with its digits.
   */
  lemma HistoryPrefixOverlap(phone: string, other: string, at: Instant)
    requires StartsWith(KeepDigits(other), KeepDigits(phone))
    ensures StartsWith(FileName(other, at), SanitizePhone(phone))
  {
    FileNameStartsWithPhone(other, at);
    var p := KeepDigits(phone);
    assert FileName(other, at)[..|p|] == KeepDigits(other)[..|p|];
  }

  /** The record `logConsent` builds; absent optional arguments take their defaults. */
  function NewRecord(phone: string, missionaryType: string, ipAddress: string, status: Option<ConsentStatus>,
                     channel: Option<ConsentMethod>, now: Instant): (r: ConsentRecord)
    ensures r.consentText == ConsentText && r.timestamp == now && r.phoneNumber == phone
    ensures r.status == (if status.Some? then status.value else OptedIn)
    ensures r.channel == (if channel.Some? then channel.value else WebForm)
  {
    ConsentRecord(phone, missionaryType, now, ConsentText, ipAddress,
                  if channel.Some? then channel.value else WebForm,
                  if status.Some? then status.value else OptedIn)
  }

  /** The records a log write starts from: a missing or unparsable file counts as empty. */
  function ExistingRecords(files: map<string, FileContent>, name: string): seq<ConsentRecord>
  {
    if name in files && files[name].Records? then files[name].records else []
  }

  /** Whether `records.push` can run on what was read: JSON that is not an array throws. */
  predicate Appendable(files: map<string, FileContent>, name: string)
  {
    !(name in files && files[name].NotAnArray?)
  }

  /** The directory after a successful append of `rec` to the file `name`. */
  function AfterLog(files: map<string, FileContent>, name: string, rec: ConsentRecord): map<string, FileContent>
  {
    files[name := Records(ExistingRecords(files, name) + [rec])]
  }

  /**
   * An append keeps the earlier records of the file in order and adds exactly
   * one after them; a missing or unparsable file ends up holding only the new
   * record; every other file is untouched.
   */
  lemma AppendKeepsEarlierRecords(files: map<string, FileContent>, name: string, rec: ConsentRecord)
    ensures var after := AfterLog(files, name, rec);
            && name in after && after[name].Records?
            && |after[name].records| == |ExistingRecords(files, name)| + 1
            && after[name].records[..|after[name].records| - 1] == ExistingRecords(files, name)
            && after[name].records[|after[name].records| - 1] == rec
            && (name in files && files[name].Records? ==> after[name].records[..|files[name].records|] == files[name].records)
            && (!(name in files && files[name].Records?) ==> after[name].records == [rec])
            && after.Keys == files.Keys + {name}
            && forall other :: other in files && other != name ==> after[other] == files[other]
  {
    var after := AfterLog(files, name, rec);
    assert after[name].records[..|after[name].records| - 1] == ExistingRecords(files, name);
  }

  /** The names in a directory listing that `startsWith` the prefix, in listing order. */
  function Relevant(names: seq<string>, prefix: string): (r: seq<string>)
    ensures forall n :: n in r <==> n in names && StartsWith(n, prefix)
  {
    if names == [] then []
    else
      var last := names[|names| - 1];
      assert names == names[..|names| - 1] + [last];
      Relevant(names[..|names| - 1], prefix) + (if StartsWith(last, prefix) then [last] else [])
  }

  /** `fs.readFile` and `JSON.parse` succeed on `name` and give an array. */
  predicate Readable(files: map<string, FileContent>, name: string)
  {
    name in files && files[name].Records?
  }

  /**
   * The loop of `getConsentHistory`: the records of the named files, file after
   * file; `None` when one of them is missing or is not a JSON array (the read,
   * the parse or the spread throws).
   */
  function Gather(files: map<string, FileContent>, names: seq<string>): (r: Option<seq<ConsentRecord>>)
    ensures r.Some? <==> forall i :: 0 <= i < |names| ==> Readable(files, names[i])
    ensures r.Some? ==> forall x :: x in r.value <==> exists i :: 0 <= i < |names| && Readable(files, names[i])
                                                                 && x in files[names[i]].records
  {
    if names == [] then Some([])
    else
      var last := names[|names| - 1];
      var prefix := names[..|names| - 1];
      assert forall i :: 0 <= i < |prefix| ==> prefix[i] == names[i];
      match Gather(files, prefix)
      case None => None
      case Some(rs) => if Readable(files, last) then Some(rs + files[last].records) else None
  }

  /** The sort key of the history: a smaller key is a more recent timestamp. */
  function NewestFirst(r: ConsentRecord): int
  {
    -r.timestamp.ms
  }

  /**
   * A record just logged is part of the gathered history of its phone whenever
   * the listing shows its file and every listed file of that phone is readable.
   */
  lemma LoggedRecordInHistory(files: map<string, FileContent>, phone: string, missionaryType: string,
                              ipAddress: string, status: Option<ConsentStatus>, channel: Option<ConsentMethod>,
                              now: Instant, listing: seq<string>)
    requires FileName(phone, now) in listing
    ensures var rec := NewRecord(phone, missionaryType, ipAddress, status, channel, now);
            var after := AfterLog(files, FileName(phone, now), rec);
            var gathered := Gather(after, Relevant(listing, SanitizePhone(phone)));
            gathered.Some? ==> rec in gathered.value
  {
    var name := FileName(phone, now);
    var rec := NewRecord(phone, missionaryType, ipAddress, status, channel, now);
    var after := AfterLog(files, name, rec);
    var names := Relevant(listing, SanitizePhone(phone));
    FileNameStartsWithPhone(phone, now);
    assert name in names;
    var i :| 0 <= i < |names| && names[i] == name;
    assert rec in after[names[i]].records;
  }

  /** The `consent-logs` directory. */
  class ConsentLog {
    var files: map<string, FileContent>

    constructor(files: map<string, FileContent>)
      ensures this.files == files
    {
      this.files := files;
    }

    /**
     * `logConsent`: append one record to the phone's file for the day. It
     * fails (the caller sees the rethrown error) when the phone is missing,
     * when the directory or the write fails (`storageOk` false), or when the
     * file holds JSON that is not an array; a failure writes nothing.
     */
    method LogConsent(phone: Option<string>, missionaryType: string, ipAddress: string,
                      status: Option<ConsentStatus>, channel: Option<ConsentMethod>, now: Instant, storageOk: bool)
      returns (ok: bool)
      modifies this
      ensures ok <==> phone.Some? && storageOk && Appendable(old(files), FileName(phone.value, now))
      ensures ok ==> files == AfterLog(old(files), FileName(phone.value, now),
                                       NewRecord(phone.value, missionaryType, ipAddress, status, channel, now))
      ensures !ok ==> files == old(files)
    {
      if !storageOk || phone.None? {
        return false;
      }
      var record := NewRecord(phone.value, missionaryType, ipAddress, status, channel, now);
      var name := FileName(phone.value, now);
      var records: seq<ConsentRecord> := [];
      if name in files {
        match files[name]
        case Records(existing) => records := existing;
        case NotJson =>
        case NotAnArray => return false;
      }
      records := records + [record];
      files := files[name := Records(records)];
      ok := true;
    }

    /**
     * `getConsentHistory`: `listing` is what `fs.readdir` returns (`None` when
     * it throws). Any failure gives the empty history; otherwise the history
     * is the gathered records, most recent first.
     */
    method GetConsentHistory(phone: Option<string>, listing: Option<seq<string>>) returns (history: seq<ConsentRecord>)
      ensures phone.None? || listing.None? ==> history == []
      ensures phone.Some? && listing.Some? ==>
                match Gather(files, Relevant(listing.value, SanitizePhone(phone.value)))
                case None => history == []
                case Some(all) => SortedBy(history, NewestFirst) && multiset(history) == multiset(all)
    {
      if phone.None? || listing.None? {
        return [];
      }
      var relevant := Relevant(listing.value, SanitizePhone(phone.value));
      var all: seq<ConsentRecord> := [];
      var i := 0;
      while i < |relevant|
        invariant 0 <= i <= |relevant|
        invariant Gather(files, relevant[..i]) == Some(all)
      {
        assert relevant[..i + 1][..i] == relevant[..i];
        var name := relevant[i];
        if !(name in files) || !files[name].Records? {
          GatherStopsAtUnreadable(files, relevant, i);
          return [];
        }
        all := all + files[name].records;
        i := i + 1;
      }
      assert relevant[..i] == relevant;
      var a := new ConsentRecord[|all|](k requires 0 <= k < |all| => all[k]);
      assert a[..] == all;
      SortByKey(a, NewestFirst);
      history := a[..];
    }
  }

  lemma GatherStopsAtUnreadable(files: map<string, FileContent>, names: seq<string>, i: nat)
    requires i < |names| && !Readable(files, names[i])
    ensures Gather(files, names) == None
  {
  }
}
