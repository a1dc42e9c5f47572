/** The Android list of shared works: the records shown, how a row is filled in, and the
    timestamp shortening. */
module SharedRecordsAdapter {
  import opened Text

  datatype SharedRecord = SharedRecord(filename: string, username: string, timestamp: string)

  /** The texts of one row. */
  datatype RowText = RowText(filename: string, username: string, timestamp: string)

  const TimestampLength := 16

  /** `formatTimestamp`: empty stays empty; a timestamp of at least 16 characters is cut to 16
      with every 'T' turned into a space; a shorter one makes `substring` throw, and the
      handler returns it unchanged. */
  function FormatTimestamp(timestamp: string): (r: string)
    ensures timestamp == "" ==> r == ""
    ensures 0 < |timestamp| < TimestampLength ==> r == timestamp
    ensures |timestamp| >= TimestampLength ==>
      && |r| == TimestampLength
      && forall i :: 0 <= i < TimestampLength ==> r[i] == if timestamp[i] == 'T' then ' ' else timestamp[i]
  {
    if timestamp == "" then ""
    else if |timestamp| < TimestampLength then timestamp
    else ReplaceChar(timestamp[..TimestampLength], 'T', ' ')
  }

  /** An ISO date-time such as "2024-05-01T12:30:45" becomes "2024-05-01 12:30". */
  lemma FormatTimestampExample()
    ensures FormatTimestamp("2024-05-01T12:30:45") == "2024-05-01 12:30"
  {
    var r := FormatTimestamp("2024-05-01T12:30:45");
    assert |r| == 16;
    assert forall i :: 0 <= i < 16 ==> r[i] == "2024-05-01 12:30"[i];
  }

  /** A formatted timestamp is a fixed point once it has no 'T'. */
  lemma FormatTimestampIdempotent(timestamp: string)
    ensures FormatTimestamp(FormatTimestamp(timestamp)) == FormatTimestamp(timestamp)
  {
    var r := FormatTimestamp(timestamp);
    if |timestamp| >= TimestampLength {
      assert r[..TimestampLength] == r;
      assert ReplaceChar(r, 'T', ' ') == r;
    }
  }

  class Adapter {
    var records: seq<SharedRecord>

    constructor()
      ensures records == []
    {
      records := [];
    }

    /** `getItemCount`. */
    function ItemCount(): (n: nat)
      reads this
      ensures n == |records|
    {
      |records|
    }

    /** `updateRecords`: the list is replaced as a whole. */
    method UpdateRecords(newRecords: seq<SharedRecord>)
      modifies this
      ensures records == newRecords
      ensures ItemCount() == |newRecords|
    {
      records := newRecords;
    }

    /** `onBindViewHolder` for a position the list view asks for. */
    function Bind(position: nat): (row: RowText)
      reads this
      requires position < |records|
      ensures row.filename == records[position].filename
      ensures row.username == "作者: " + records[position].username
      ensures row.timestamp == FormatTimestamp(records[position].timestamp)
    {
      var record := records[position];
      RowText(record.filename, "作者: " + record.username, FormatTimestamp(record.timestamp))
    }
  }
}
