/**
 * The CSV logger (`LogFileHandler`): per run, the EXIF file is (re)created
 * while the store says the images were cleared, one EXIF row is written per
 * image number it lags behind, and while logging is on the ship-position,
 * data and telemetry files are set up once and get one row each.  The
 * values in the rows are opaque texts (`Readings`); each writer is the text
 * of the file it writes to, or None for a writer that is still null, whose
 * appends throw and are caught.  Creating a file and its writer either
 * succeeds or fails as a whole, as the outcome flags say.
 */
module CsvLogger {
  import opened Wrappers
  import opened JavaText
  import opened SharedData

  /** The values a run reads from the store and the clock, already as text. */
  datatype Readings = Readings(
    time: string, csvTime: string,
    latitude: string, longitude: string, speed: string, gpsAngle: string, depth: string,
    roll: string, pitch: string, depthBeneathBoat: string, depthBeneathRov: string, rovDepth: string,
    wingAngleSb: string, wingAnglePort: string, targetDistance: string, voltage: string,
    outsideTemp: string, insideTemp: string, humidity: string,
    tempElBoxFront: string, tempElBoxRear: string, i2cError: string, leakStatus: string)

  /** The logger's fields; a file is the text its writer has written, None while the writer is null. */
  datatype Logger = Logger(
    exifSetup: bool, setupIsDone: bool, lastImageNumber: int,
    shipTrackPointNumb: int, dataPointNumb: int,
    shipTrack: string, dataLog: string, telementryLog: string, exifLog: string,
    shipPosFile: Option<string>, dataFile: Option<string>, telementryFile: Option<string>, exifFile: Option<string>)

  /** The logger as constructed. */
  const InitialLogger: Logger := Logger(false, false, 0, 1, 1, "null", "", "", "", None, None, None, None)

  predicate InRange(l: Logger)
  {
    IsInt32(l.lastImageNumber) && IsInt32(l.shipTrackPointNumb) && IsInt32(l.dataPointNumb)
  }

  const ExifHeader: string := "Latitude,Longtitude,Time"
  const ShipPosHeader: string := "Point,Time,Latitude,Longtitude,Speed,ROV Depth,GPSHeading"
  const TelementryHeader: string := "Latitude,Longtitude, Elevation, Time"

  /** The columns the data file's header names, as the header text spells them. */
  const DataColumns: seq<string> := [
    "Point", "Time", "Roll", "Pitch", "Depth",
    "DepthToSeaFloor", "ROV_Depth", "WingAngleSB",
    "WingAnglePort", "setPoint",
    "Voltage", "Emergency", " outsideTemp",
    "insideTempCameraHouse", " humidity", " tempElBoxFromt",
    "tempElBoxRear", " I2CError", " LeakDetection"]

  /** The data file's header, as `run` writes it. */
  const DataHeader: string :=
    "Point,Time,Roll,Pitch,Depth,"
    + "DepthToSeaFloor,ROV_Depth,WingAngleSB,"
    + "WingAnglePort,setPoint,"
    + "Voltage,Emergency, outsideTemp,"
    + "insideTempCameraHouse, humidity, tempElBoxFromt,"
    + "tempElBoxRear, I2CError, LeakDetection"

  /** Joining two non-empty lists is joining each and putting the separator between. */
  lemma {:induction false} JoinAppend(xs: seq<string>, ys: seq<string>, sep: char)
    requires |xs| >= 1 && |ys| >= 1
    ensures Join(xs + ys, sep) == Join(xs, sep) + [sep] + Join(ys, sep)
    decreases |xs|
  {
    if |xs| > 1 {
      assert (xs + ys)[1..] == xs[1..] + ys;
      JoinAppend(xs[1..], ys, sep);
    } else {
      assert (xs + ys)[1..] == ys;
    }
  }

  lemma JoinTwo(a: string, b: string, sep: char)
    ensures Join([a, b], sep) == a + [sep] + b
  {
    assert [a, b][1..] == [b];
  }

  lemma JoinThree(a: string, b: string, c: string, sep: char)
    ensures Join([a, b, c], sep) == a + [sep] + b + [sep] + c
  {
    assert [a, b, c][1..] == [b, c];
    JoinTwo(b, c, sep);
  }

  /** A group of columns whose join, with the separator after it, is `piece`, puts `piece` in front of the rest. */
  lemma JoinPiece(group: seq<string>, rest: seq<string>, piece: string, sep: char)
    requires |group| >= 1 && |rest| >= 1
    requires Join(group, sep) + [sep] == piece
    ensures Join(group + rest, sep) == piece + Join(rest, sep)
  {
    JoinAppend(group, rest, sep);
  }

  lemma AppendAssoc(a: string, b: string, c: string)
    ensures a + b + c == a + (b + c)
  {
  }

  // The header's six pieces, each the join of its columns (with the comma after it).
  lemma Piece1()
    ensures Join(["Point", "Time", "Roll", "Pitch", "Depth"], ',') + "," == "Point,Time,Roll,Pitch,Depth,"
  {
    JoinAppend(["Point", "Time"], ["Roll", "Pitch", "Depth"], ',');
    assert ["Point", "Time"] + ["Roll", "Pitch", "Depth"] == ["Point", "Time", "Roll", "Pitch", "Depth"];
    JoinTwo("Point", "Time", ',');
    JoinThree("Roll", "Pitch", "Depth", ',');
  }

  lemma Piece2()
    ensures Join(["DepthToSeaFloor", "ROV_Depth", "WingAngleSB"], ',') + "," == "DepthToSeaFloor,ROV_Depth,WingAngleSB,"
  {
    JoinThree("DepthToSeaFloor", "ROV_Depth", "WingAngleSB", ',');
  }

  lemma Piece3()
    ensures Join(["WingAnglePort", "setPoint"], ',') + "," == "WingAnglePort,setPoint,"
  {
    JoinTwo("WingAnglePort", "setPoint", ',');
  }

  lemma Piece4()
    ensures Join(["Voltage", "Emergency", " outsideTemp"], ',') + "," == "Voltage,Emergency, outsideTemp,"
  {
    JoinThree("Voltage", "Emergency", " outsideTemp", ',');
  }

  lemma Piece5()
    ensures Join(["insideTempCameraHouse", " humidity", " tempElBoxFromt"], ',') + "," == "insideTempCameraHouse, humidity, tempElBoxFromt,"
  {
    JoinThree("insideTempCameraHouse", " humidity", " tempElBoxFromt", ',');
  }

  lemma Piece6()
    ensures Join(["tempElBoxRear", " I2CError", " LeakDetection"], ',') == "tempElBoxRear, I2CError, LeakDetection"
  {
    JoinThree("tempElBoxRear", " I2CError", " LeakDetection", ',');
  }

  /** The data header is the nineteen columns, comma-separated. */
  lemma DataHeaderJoinsColumns()
    ensures Join(DataColumns, ',') == DataHeader
  {
    var g1 := ["Point", "Time", "Roll", "Pitch", "Depth"];
    var g2 := ["DepthToSeaFloor", "ROV_Depth", "WingAngleSB"];
    var g3 := ["WingAnglePort", "setPoint"];
    var g4 := ["Voltage", "Emergency", " outsideTemp"];
    var g5 := ["insideTempCameraHouse", " humidity", " tempElBoxFromt"];
    var g6 := ["tempElBoxRear", " I2CError", " LeakDetection"];
    var c1, c2, c3 := "Point,Time,Roll,Pitch,Depth,", "DepthToSeaFloor,ROV_Depth,WingAngleSB,", "WingAnglePort,setPoint,";
    var c4, c5, c6 := "Voltage,Emergency, outsideTemp,", "insideTempCameraHouse, humidity, tempElBoxFromt,", "tempElBoxRear, I2CError, LeakDetection";
    assert DataColumns == g1 + (g2 + (g3 + (g4 + (g5 + g6))));
    Piece1(); Piece2(); Piece3(); Piece4(); Piece5(); Piece6();
    JoinPiece(g5, g6, c5, ',');
    JoinPiece(g4, g5 + g6, c4, ',');
    JoinPiece(g3, g4 + (g5 + g6), c3, ',');
    JoinPiece(g2, g3 + (g4 + (g5 + g6)), c2, ',');
    JoinPiece(g1, g2 + (g3 + (g4 + (g5 + g6))), c1, ',');
    AppendAssoc(c1, c2, c3 + (c4 + (c5 + c6)));
    AppendAssoc(c1 + c2, c3, c4 + (c5 + c6));
    AppendAssoc(c1 + c2 + c3, c4, c5 + c6);
    AppendAssoc(c1 + c2 + c3 + c4, c5, c6);
  }

  lemma DataColumnsHaveNoComma()
    ensures |DataColumns| == 19 && forall i :: 0 <= i < |DataColumns| ==> ',' !in DataColumns[i]
  {
  }

  /** Read back field by field, the data header gives its nineteen columns. */
  lemma DataHeaderSplits()
    ensures SplitAll(DataHeader, ',') == DataColumns
  {
    DataHeaderJoinsColumns();
    DataColumnsHaveNoComma();
    SplitJoin(DataColumns, ',');
  }

  // ---------------------------------------------------------------------
  // Rows

  function ShipPosValues(point: int, r: Readings): seq<string>
  {
    [IntToString(point), r.time, r.latitude, r.longitude, r.speed, r.rovDepth, r.gpsAngle]
  }

  /** The data row's values, in the order `logData` concatenates them: no emergency flag among them. */
  function DataValues(point: int, r: Readings): seq<string>
  {
    [IntToString(point), r.time, r.roll, r.pitch, r.depthBeneathBoat, r.depthBeneathRov, r.rovDepth,
     r.wingAngleSb, r.wingAnglePort, r.targetDistance, r.voltage, r.outsideTemp, r.insideTemp,
     r.humidity, r.tempElBoxFront, r.tempElBoxRear, r.i2cError, r.leakStatus]
  }

  function TelementryValues(r: Readings): seq<string>
  {
    [r.latitude, r.longitude, r.depth, r.csvTime]
  }

  function ShipPosRow(point: int, r: Readings): string
  {
    Join(ShipPosValues(point, r), ',')
  }

  /** Every value of the data row is followed by a comma, the last one too. */
  function DataRow(point: int, r: Readings): string
  {
    Join(DataValues(point, r), ',') + ","
  }

  function TelementryRow(r: Readings): string
  {
    Join(TelementryValues(r), ',')
  }

  /** A row appended to a writer: a line break, then the row; a null writer throws and nothing is written. */
  function Appended(file: Option<string>, row: string): (r: Option<string>)
    ensures r.Some? <==> file.Some?
    ensures file.Some? ==> r.value == file.value + "\n" + row
  {
    if file.Some? then Some(file.value + "\n" + row) else None
  }

  // ---------------------------------------------------------------------
  // One run

  /**
   * The EXIF set-up at the top of `run`: while no EXIF file was made, or
   * the store says the images were cleared, the image count restarts at 0
   * and, when the file can be made, a new one gets the header and the store
   * is told the images were cleared.  The flag says whether that happened.
   */
  function ExifPrepared(l: Logger, imagesCleared: bool, exifOk: bool): (Logger, bool)
  {
    if !l.exifSetup || imagesCleared then
      var restarted := l.(lastImageNumber := 0);
      if exifOk then (restarted.(exifFile := Some(ExifHeader), exifSetup := true), true)
      else (restarted, false)
    else (l, false)
  }

  /** `logExifData`: the position is kept as `exifLog`, but the row appended is the last telemetry row. */
  function ExifLogged(l: Logger, r: Readings): Logger
  {
    l.(exifLog := r.latitude + "," + r.longitude, exifFile := Appended(l.exifFile, l.telementryLog))
  }

  /** The EXIF catch-up: an image number other than the last one seen moves it by one and logs one row. */
  function ExifCaughtUp(l: Logger, imageNumber: int, r: Readings): Logger
    requires InRange(l)
  {
    if imageNumber != l.lastImageNumber then ExifLogged(l.(lastImageNumber := Inc32(l.lastImageNumber)), r) else l
  }

  /** The set-up of the three logs: new files with their headers, or, when it throws, nothing. */
  function LogsSetUp(l: Logger, setupOk: bool): Logger
  {
    if setupOk then
      l.(shipPosFile := Some(ShipPosHeader), dataFile := Some(DataHeader), telementryFile := Some(TelementryHeader),
         setupIsDone := true)
    else l
  }

  /** `logShipPosition`: the point number moves only after the row was written. */
  function ShipPosLogged(l: Logger, r: Readings): Logger
    requires InRange(l)
  {
    var row := ShipPosRow(l.shipTrackPointNumb, r);
    l.(shipTrack := row, shipPosFile := Appended(l.shipPosFile, row),
       shipTrackPointNumb := if l.shipPosFile.Some? then Inc32(l.shipTrackPointNumb) else l.shipTrackPointNumb)
  }

  /** `logData`: the point number moves only after the row was written. */
  function DataLogged(l: Logger, r: Readings): Logger
    requires InRange(l)
  {
    var row := DataRow(l.dataPointNumb, r);
    l.(dataLog := row, dataFile := Appended(l.dataFile, row),
       dataPointNumb := if l.dataFile.Some? then Inc32(l.dataPointNumb) else l.dataPointNumb)
  }

  /** `logTelementry`: the row is kept for the next EXIF row whether or not it could be written. */
  function TelementryLogged(l: Logger, r: Readings): Logger
  {
    var row := TelementryRow(r);
    l.(telementryLog := row, telementryFile := Appended(l.telementryFile, row))
  }

  /** The logging half of `run`: set up if needed and one row per log, or, when logging is off, a set-up to redo. */
  function Logged(l: Logger, startLogging: bool, r: Readings, setupOk: bool): (res: Logger)
    requires InRange(l)
    ensures InRange(res)
  {
    if startLogging then
      var ready := if !l.setupIsDone then LogsSetUp(l, setupOk) else l;
      TelementryLogged(DataLogged(ShipPosLogged(ready, r), r), r)
    else l.(setupIsDone := false)
  }

  /**
   * One `run`, given the store's image-cleared flag, image number and
   * logging switch; the flag returned says whether the store was told the
   * images were cleared.
   */
  function Ran(l: Logger, imagesCleared: bool, imageNumber: int, startLogging: bool, r: Readings,
               exifOk: bool, setupOk: bool): (res: (Logger, bool))
    requires InRange(l)
    ensures InRange(res.0)
  {
    var prepared := ExifPrepared(l, imagesCleared, exifOk);
    (Logged(ExifCaughtUp(prepared.0, imageNumber, r), startLogging, r, setupOk), prepared.1)
  }

  // ---------------------------------------------------------------------
  // What a run promises

  /** With logging off, no row is written anywhere but the EXIF file, no point number moves, and the set-up is to be redone. */
  lemma NotLoggingWritesNoRows(l: Logger, imagesCleared: bool, imageNumber: int, r: Readings, exifOk: bool, setupOk: bool)
    requires InRange(l)
    ensures var res := Ran(l, imagesCleared, imageNumber, false, r, exifOk, setupOk).0;
            && !res.setupIsDone
            && res.shipPosFile == l.shipPosFile && res.dataFile == l.dataFile && res.telementryFile == l.telementryFile
            && res.shipTrackPointNumb == l.shipTrackPointNumb && res.dataPointNumb == l.dataPointNumb
  {
  }

  /**
   * While logging, each of the three files gets exactly one more line, the
   * row of this run, and each point number moves by one exactly when its row
   * was written.
   */
  lemma LoggingAppendsOneRowEach(l: Logger, imagesCleared: bool, imageNumber: int, r: Readings, exifOk: bool, setupOk: bool)
    requires InRange(l)
    ensures var mid := ExifCaughtUp(ExifPrepared(l, imagesCleared, exifOk).0, imageNumber, r);
            var ready := if !l.setupIsDone then LogsSetUp(mid, setupOk) else mid;
            var res := Ran(l, imagesCleared, imageNumber, true, r, exifOk, setupOk).0;
            && res.shipPosFile == Appended(ready.shipPosFile, ShipPosRow(l.shipTrackPointNumb, r))
            && res.dataFile == Appended(ready.dataFile, DataRow(l.dataPointNumb, r))
            && res.telementryFile == Appended(ready.telementryFile, TelementryRow(r))
            && res.shipTrackPointNumb == (if ready.shipPosFile.Some? then Inc32(l.shipTrackPointNumb) else l.shipTrackPointNumb)
            && res.dataPointNumb == (if ready.dataFile.Some? then Inc32(l.dataPointNumb) else l.dataPointNumb)
            && res.telementryLog == TelementryRow(r)
  {
    var prepared := ExifPrepared(l, imagesCleared, exifOk).0;
    assert prepared.shipTrackPointNumb == l.shipTrackPointNumb && prepared.dataPointNumb == l.dataPointNumb;
    assert prepared.setupIsDone == l.setupIsDone;
  }

  /** A successful first set-up writes the header and then the first row, numbered 1, to each file. */
  lemma FirstRunWritesHeaderThenRow(imagesCleared: bool, imageNumber: int, r: Readings, exifOk: bool)
    ensures var res := Ran(InitialLogger, imagesCleared, imageNumber, true, r, exifOk, true).0;
            && res.shipPosFile == Some(ShipPosHeader + "\n" + ShipPosRow(1, r))
            && res.dataFile == Some(DataHeader + "\n" + DataRow(1, r))
            && res.telementryFile == Some(TelementryHeader + "\n" + TelementryRow(r))
            && res.shipTrackPointNumb == 2 && res.dataPointNumb == 2
  {
    LoggingAppendsOneRowEach(InitialLogger, imagesCleared, imageNumber, r, exifOk, true);
  }

  /**
   * The EXIF set-up tells the store the images were cleared, which is the
   * very condition that sets it up: once the store says so, every run makes
   * the EXIF file anew and restarts the image count, so the count never
   * gets past one and the file never holds more than one row.
   */
  lemma ExifRedoneEveryRun(l: Logger, imageNumber: int, startLogging: bool, r: Readings, setupOk: bool)
    requires InRange(l)
    ensures var res := Ran(l, true, imageNumber, startLogging, r, true, setupOk);
            && res.1
            && res.0.lastImageNumber == (if imageNumber != 0 then 1 else 0)
            && res.0.exifFile == Some(if imageNumber != 0 then ExifHeader + "\n" + l.telementryLog else ExifHeader)
  {
  }

  /**
   * The point numbers are never reset: a run leaves each one as it was or
   * moves it by one (with `int` wrap-around), and it moves exactly when its
   * row went to an open file.
   */
  lemma PointNumbersOnlyStep(l: Logger, imagesCleared: bool, imageNumber: int, startLogging: bool, r: Readings,
                             exifOk: bool, setupOk: bool)
    requires InRange(l)
    ensures var res := Ran(l, imagesCleared, imageNumber, startLogging, r, exifOk, setupOk).0;
            && (res.shipTrackPointNumb == l.shipTrackPointNumb || res.shipTrackPointNumb == Inc32(l.shipTrackPointNumb))
            && (res.dataPointNumb == l.dataPointNumb || res.dataPointNumb == Inc32(l.dataPointNumb))
            && (res.shipTrackPointNumb != l.shipTrackPointNumb <==> startLogging && res.shipPosFile.Some?)
            && (res.dataPointNumb != l.dataPointNumb <==> startLogging && res.dataFile.Some?)
  {
    if startLogging {
      LoggingAppendsOneRowEach(l, imagesCleared, imageNumber, r, exifOk, setupOk);
    }
  }

  /** One EXIF row per run at most: an image number other than the last one seen moves that count by exactly one. */
  lemma ExifCatchUpByOne(l: Logger, imageNumber: int, r: Readings)
    requires InRange(l)
    ensures var res := ExifCaughtUp(l, imageNumber, r);
            && (imageNumber != l.lastImageNumber ==>
                  res.lastImageNumber == Inc32(l.lastImageNumber) && res.exifFile == Appended(l.exifFile, l.telementryLog))
            && (imageNumber == l.lastImageNumber ==> res == l)
  {
  }

  /** The EXIF row is the telemetry row of the run before (four values under a three-column header), not the position kept in `exifLog`. */
  lemma ExifRowIsPreviousTelemetry(l: Logger, imageNumber: int, r: Readings)
    requires InRange(l) && l.exifFile.Some? && imageNumber != l.lastImageNumber
    ensures ExifCaughtUp(l, imageNumber, r).exifFile == Some(l.exifFile.value + "\n" + l.telementryLog)
    ensures ExifCaughtUp(l, imageNumber, r).exifLog == r.latitude + "," + r.longitude
    ensures |TelementryValues(r)| == 4 && |SplitAll(ExifHeader, ',')| == 3
  {
    assert ExifHeader == Join(["Latitude", "Longtitude", "Time"], ',') by {
      assert ["Latitude", "Longtitude", "Time"][1..] == ["Longtitude", "Time"];
      assert ["Longtitude", "Time"][1..] == ["Time"];
    }
    SplitJoin(["Latitude", "Longtitude", "Time"], ',');
  }

  /** A text with no comma. */
  predicate NoComma(s: string) { ',' !in s }

  lemma NumberHasNoComma(n: int)
    ensures NoComma(IntToString(n))
  {
    if n < 0 {
      var s := IntToString(n);
      assert s[1..] == NatToString(-n);
      assert forall i :: 1 <= i < |s| ==> IsDigit(s[i]) by {
        forall i | 1 <= i < |s| ensures IsDigit(s[i]) {
          assert s[i] == s[1..][i - 1];
        }
      }
    }
  }

  /** Joining and then appending the separator is joining with one more, empty, piece. */
  lemma {:induction false} JoinThenSeparator(xs: seq<string>, sep: char)
    requires |xs| >= 1
    ensures Join(xs, sep) + [sep] == Join(xs + [""], sep)
    decreases |xs|
  {
    if |xs| > 1 {
      JoinThenSeparator(xs[1..], sep);
      assert (xs + [""])[1..] == xs[1..] + [""];
    } else {
      assert (xs + [""])[1..] == [""];
    }
  }

  /**
   * Read back field by field, a data row whose readings hold no comma gives
   * its eighteen values and then an empty field, left by the trailing comma;
   * `String.split` drops that empty field.
   */
  lemma DataRowFields(point: int, r: Readings)
    requires forall i :: 1 <= i < |DataValues(point, r)| ==> NoComma(DataValues(point, r)[i])
    requires r.leakStatus != ""
    ensures SplitAll(DataRow(point, r), ',') == DataValues(point, r) + [""]
    ensures JavaSplit(DataRow(point, r), ',') == DataValues(point, r)
  {
    NumberHasNoComma(point);
    TerminatedJoinSplits(DataValues(point, r), ',');
  }

  /** Pieces each followed by the separator split into the pieces and an empty last one, which `String.split` drops. */
  lemma TerminatedJoinSplits(xs: seq<string>, sep: char)
    requires |xs| >= 1 && xs[|xs| - 1] != ""
    requires forall i :: 0 <= i < |xs| ==> sep !in xs[i]
    ensures SplitAll(Join(xs, sep) + [sep], sep) == xs + [""]
    ensures JavaSplit(Join(xs, sep) + [sep], sep) == xs
  {
    JoinThenSeparator(xs, sep);
    assert forall i :: 0 <= i < |xs + [""]| ==> sep !in (xs + [""])[i];
    SplitJoin(xs + [""], sep);
    var s := Join(xs, sep) + [sep];
    assert sep in s by {
      assert s[|s| - 1] == sep;
    }
    assert DropTrailingEmpty(xs + [""]) == xs by {
      assert (xs + [""])[..|xs|] == xs;
    }
  }

  /** The header's columns past the point where the row leaves out the emergency flag. */
  lemma DataColumnsNamed()
    ensures DataColumns[11] == "Emergency" && DataColumns[12] == " outsideTemp" && DataColumns[18] == " LeakDetection"
  {
  }

  /**
   * The data header has nineteen columns and the data row nineteen fields,
   * but the row has no emergency flag: the `Emergency` column holds the
   * outside temperature, each later column the value meant for the one
   * before it, and `LeakDetection` holds nothing.
   */
  lemma DataRowMisalignsHeader(point: int, r: Readings)
    requires forall i :: 1 <= i < |DataValues(point, r)| ==> NoComma(DataValues(point, r)[i])
    requires r.leakStatus != ""
    ensures var fields := SplitAll(DataRow(point, r), ',');
            && |DataColumns| == |fields| == 19
            && DataColumns[11] == "Emergency" && fields[11] == r.outsideTemp
            && DataColumns[12] == " outsideTemp" && fields[12] == r.insideTemp
            && DataColumns[18] == " LeakDetection" && fields[17] == r.leakStatus && fields[18] == ""
  {
    DataColumnsHaveNoComma();
    DataColumnsNamed();
    DataRowFields(point, r);
  }

  // ---------------------------------------------------------------------
  // The logger

  class LogFileHandler {
    var exifSetup: bool
    var setupIsDone: bool
    var lastImageNumber: int
    var shipTrackPointNumb: int
    var dataPointNumb: int
    var shipTrack: string
    var dataLog: string
    var telementryLog: string
    var exifLog: string
    var shipPosFile: Option<string>
    var dataFile: Option<string>
    var telementryFile: Option<string>
    var exifFile: Option<string>
    const data: Data

    function View(): Logger
      reads this
    {
      Logger(exifSetup, setupIsDone, lastImageNumber, shipTrackPointNumb, dataPointNumb,
             shipTrack, dataLog, telementryLog, exifLog, shipPosFile, dataFile, telementryFile, exifFile)
    }

    ghost predicate Valid()
      reads this, data
    {
      data.Valid() && InRange(View())
    }

    constructor (data: Data)
      requires data.Valid()
      ensures Valid() && this.data == data && View() == InitialLogger
    {
      this.data := data;
      exifSetup, setupIsDone, lastImageNumber := false, false, 0;
      shipTrackPointNumb, dataPointNumb := 1, 1;
      shipTrack, dataLog, telementryLog, exifLog := "null", "", "", "";
      shipPosFile, dataFile, telementryFile, exifFile := None, None, None, None;
    }

    /** `run`, given whether the EXIF file and the three logs can be created. */
    method Run(r: Readings, exifOk: bool, setupOk: bool)
      requires Valid()
      modifies this, data
      ensures Valid()
      ensures var res := Ran(old(View()), old(data.modes.imagesCleared), old(data.imaging.imageNumber),
                             old(data.modes.startLogging), r, exifOk, setupOk);
              && View() == res.0
              && data.View() == if res.1 then old(data.View()).(modes := old(data.modes).(imagesCleared := true))
                                else old(data.View())
    {
      PrepareExif(exifOk);
      CatchUpExif(r);
      LogRows(r, setupOk);
    }

    /** The EXIF set-up at the top of `run`. */
    method PrepareExif(exifOk: bool)
      requires Valid()
      modifies this, data
      ensures Valid()
      ensures View() == ExifPrepared(old(View()), old(data.modes.imagesCleared), exifOk).0
      ensures data.View() == if ExifPrepared(old(View()), old(data.modes.imagesCleared), exifOk).1
                             then old(data.View()).(modes := old(data.modes).(imagesCleared := true))
                             else old(data.View())
    {
      if !exifSetup || data.modes.imagesCleared {
        lastImageNumber := 0;
        if exifOk {
          exifFile := Some(ExifHeader);
          exifSetup := true;
          data.SetImagesCleared(true);
        }
      }
    }

    /** The EXIF catch-up. */
    method CatchUpExif(r: Readings)
      requires Valid()
      modifies this
      ensures Valid()
      ensures View() == ExifCaughtUp(old(View()), data.imaging.imageNumber, r)
    {
      if data.imaging.imageNumber != lastImageNumber {
        lastImageNumber := Inc32(lastImageNumber);
        LogExifData(r);
      }
    }

    /** `logExifData`. */
    method LogExifData(r: Readings)
      modifies this
      ensures View() == ExifLogged(old(View()), r)
    {
      exifLog := r.latitude + "," + r.longitude;
      if exifFile.Some? {
        exifFile := Some(exifFile.value + "\n" + telementryLog);
      }
    }

    /** The logging half of `run`. */
    method LogRows(r: Readings, setupOk: bool)
      requires Valid()
      modifies this
      ensures Valid()
      ensures View() == Logged(old(View()), data.modes.startLogging, r, setupOk)
    {
      if data.modes.startLogging {
        if !setupIsDone {
          SetUpLogs(setupOk);
        }
        LogShipPosition(r);
        LogData(r);
        LogTelementry(r);
      } else {
        setupIsDone := false;
      }
    }

    /** The set-up of the three logs. */
    method SetUpLogs(setupOk: bool)
      requires Valid()
      modifies this
      ensures Valid()
      ensures View() == LogsSetUp(old(View()), setupOk)
    {
      if setupOk {
        shipPosFile := Some(ShipPosHeader);
        dataFile := Some(DataHeader);
        telementryFile := Some(TelementryHeader);
        setupIsDone := true;
      }
    }

    /** `logShipPosition`. */
    method LogShipPosition(r: Readings)
      requires Valid()
      modifies this
      ensures Valid()
      ensures View() == ShipPosLogged(old(View()), r)
    {
      shipTrack := ShipPosRow(shipTrackPointNumb, r);
      if shipPosFile.Some? {
        shipPosFile := Some(shipPosFile.value + "\n" + shipTrack);
        shipTrackPointNumb := Inc32(shipTrackPointNumb);
      }
    }

    /** `logData`. */
    method LogData(r: Readings)
      requires Valid()
      modifies this
      ensures Valid()
      ensures View() == DataLogged(old(View()), r)
    {
      dataLog := DataRow(dataPointNumb, r);
      if dataFile.Some? {
        dataFile := Some(dataFile.value + "\n" + dataLog);
        dataPointNumb := Inc32(dataPointNumb);
      }
    }

    /** `logTelementry`. */
    method LogTelementry(r: Readings)
      requires Valid()
      modifies this
      ensures Valid()
      ensures View() == TelementryLogged(old(View()), r)
    {
      telementryLog := TelementryRow(r);
      if telementryFile.Some? {
        telementryFile := Some(telementryFile.value + "\n" + telementryLog);
      }
    }
  }
}
