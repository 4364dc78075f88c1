/** The registrations a scan reads are the URL columns of the segment table. */
module Registration {
  import opened Wrappers
  import opened Names
  import opened FileTypes
  import opened SyncQueue
  import opened Segments
  import Ingest
  import DevSync

  predicate NamesRow(k: (string, int), name: string) {
    RowName(k.0, k.1) == name
  }

  /** The registry holds, under each row's primary key, the columns that the row has filled, and nothing else. */
  ghost predicate Reflects(reg: DevSync.Registry, segments: SegTable) {
    && (forall k | k in segments ::
          k.1 >= 0 && RowName(k.0, k.1) in reg && reg[RowName(k.0, k.1)] == segments[k].urls.Keys)
    && (forall name | name in reg :: exists k :: k in segments && NamesRow(k, name))
  }

  lemma ReflectedRow(reg: DevSync.Registry, segments: SegTable, k: (string, int))
    requires Reflects(reg, segments) && k.1 >= 0
    ensures DevSync.RowOf(reg, RowName(k.0, k.1)).GetOr({}) == Ingest.RowAt(segments, k).urls.Keys
  {
    hide RowName;
    var name := RowName(k.0, k.1);
    if name in reg {
      var j :| j in segments && NamesRow(j, name);
      RowNameInjective(j.0, j.1, k.0, k.1);
      assert k in segments;
    }
  }

  lemma ReflectsUpdate(reg: DevSync.Registry, segments: SegTable, k: (string, int), row: SegRow)
    requires Reflects(reg, segments) && k.1 >= 0
    ensures Reflects(reg[RowName(k.0, k.1) := row.urls.Keys], segments[k := row])
  {
    hide RowName;
    var name := RowName(k.0, k.1);
    forall j | j in segments && j != k ensures RowName(j.0, j.1) != name {
      if RowName(j.0, j.1) == name {
        RowNameInjective(j.0, j.1, k.0, k.1);
      }
    }
    var reg' := reg[name := row.urls.Keys];
    forall n | n in reg' ensures exists j :: j in segments[k := row] && NamesRow(j, n) {
      if n == name {
        assert NamesRow(k, n);
      } else {
        var j :| j in segments && NamesRow(j, n);
        assert j in segments[k := row];
      }
    }
  }

  /** The columns that one registration fills. */
  lemma ColumnsFilled(db: Ingest.Db, it: QueueItem, row: SegRow)
    ensures (row.urls + Ingest.OwnUrl(it.dongle, it.ts, it.seg, it.file)).Keys
         == row.urls.Keys + if FileKind(it.file).Some? then {FileKind(it.file).value} else {}
    ensures Ingest.CamUrls(CAMERAS, db.blobs.Keys, it.dongle, it.ts, it.seg).Keys
         == DevSync.StoredCams(db.blobs.Keys, it.dongle, it.ts, it.seg)
  {
    hide FileKind, Ingest.ConnectdataUrl, BlobKey, CamFile;
    Ingest.CamUrlsExact(CAMERAS, db.blobs.Keys, it.dongle, it.ts, it.seg);
  }

  /** The sync system's registration is the ingest's: both fill the same columns of the same row. */
  lemma RegistrationsAgree(db: Ingest.Db, reg: DevSync.Registry, it: QueueItem, body: Ingest.Body)
    requires Reflects(reg, db.segments) && it.seg >= 0
    requires Ingest.AfterRegister(db, it.dongle, it.ts, it.seg, it.file, body).Ok?
    ensures var db' := Ingest.AfterRegister(db, it.dongle, it.ts, it.seg, it.file, body).value;
            Reflects(DevSync.RegisterFile(reg, db.blobs.Keys, it), db'.segments)
  {
    hide Reflects, RowName, RouteName, FileKind, Has, DevSync.StoredCams, Ingest.CamUrls, Ingest.OwnUrl, Aggregated,
         Numbers, Ingest.RowAt, DevSync.RowOf, CAMERAS;
    var k := (RouteName(it.dongle, it.ts), it.seg);
    var row := Ingest.RowAt(db.segments, k);
    ReflectedRow(reg, db.segments, k);
    ColumnsFilled(db, it, row);
    QlogIsKnown(it.file);
    var own := row.urls + Ingest.OwnUrl(it.dongle, it.ts, it.seg, it.file);
    if Has(it.file, Qlog) {
      var urls := own + Ingest.CamUrls(CAMERAS, db.blobs.Keys, it.dongle, it.ts, it.seg);
      assert urls.Keys == own.Keys + DevSync.StoredCams(db.blobs.Keys, it.dongle, it.ts, it.seg);
      ReflectsUpdate(reg, db.segments, k, SegRow(urls, Ingest.StatsOf(body.parsed.value)));
    } else if FileKind(it.file).Some? {
      ReflectsUpdate(reg, db.segments, k, row.(urls := own));
    }
  }

  lemma QlogIsKnown(file: string)
    ensures Has(file, Qlog) ==> FileKind(file).Some?
  {
    if Has(file, Qlog) {
      QlogHasKind(file);
    }
  }
}
