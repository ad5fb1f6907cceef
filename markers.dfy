/** Marker files: a directory entry `.markerfile-<id>.txt` records that the
    customization identified by `<id>` has run, so a reboot does not repeat
    its one-time steps. The directory is modelled as the set of its entry
    names. */
module Markers {
  import opened Common

  const MarkerPrefix := ".markerfile"

  function MarkerFileName(markerId: string): string {
    MarkerPrefix + "-" + markerId + ".txt"
  }

  predicate IsMarker(name: string) {
    StartsWith(name, MarkerPrefix)
  }

  /** `check_marker_exists(markerid, marker_dir)` for a directory holding
      the entries `files`: an empty id never has a marker, and a marker is
      found only in a directory holding some `.markerfile` entry. */
  predicate CheckMarkerExists(markerId: string, files: set<string>)
    ensures markerId == "" ==> !CheckMarkerExists(markerId, files)
    ensures CheckMarkerExists(markerId, files) ==> exists f :: f in files && IsMarker(f)
  {
    MarkerFileIsMarker(markerId);
    markerId != "" && MarkerFileName(markerId) in files
  }

  /** The entries that are not markers. */
  function NonMarkers(files: set<string>): set<string> {
    set f | f in files && !IsMarker(f)
  }

  /** The directory `setup_marker_files` leaves behind. */
  function AfterSetup(files: set<string>, markerId: string): set<string> {
    NonMarkers(files) + {MarkerFileName(markerId)}
  }

  /** A marker directory whose entries the datasource deletes and creates. */
  class MarkerDir {
    var files: set<string>

    constructor (files: set<string>)
      ensures this.files == files
    {
      this.files := files;
    }

    /** `setup_marker_files(markerid, marker_dir)`: every entry of the
        listing whose name starts with `.markerfile` is deleted, then the
        marker of `markerId` is created. */
    method SetupMarkerFiles(markerId: string)
      modifies this
      ensures files == AfterSetup(old(files), markerId)
    {
      var markerFile := MarkerFileName(markerId);
      var listing := files;
      var remaining := listing;
      while remaining != {}
        invariant remaining <= listing
        invariant forall g :: g in files <==> g in listing && (g in remaining || !IsMarker(g))
        decreases remaining
      {
        var fname :| fname in remaining;
        if IsMarker(fname) {
          files := files - {fname};
        }
        remaining := remaining - {fname};
      }
      assert files == NonMarkers(listing);
      files := files + {markerFile};
    }
  }

  /** The marker's own name starts with the marker prefix. */
  lemma MarkerFileIsMarker(markerId: string)
    ensures IsMarker(MarkerFileName(markerId))
  {
    assert MarkerFileName(markerId)[..|MarkerPrefix|] == MarkerPrefix;
  }

  /** After setup exactly one entry starts with `.markerfile`, the new
      marker, and the check for that id holds. */
  lemma SetupLeavesOneMarker(files: set<string>, markerId: string)
    ensures forall f :: f in AfterSetup(files, markerId) && IsMarker(f) <==> f == MarkerFileName(markerId)
    ensures markerId != "" ==> CheckMarkerExists(markerId, AfterSetup(files, markerId))
  {
    MarkerFileIsMarker(markerId);
  }

  /** Setup leaves every other entry alone and removes the markers of every
      other id. */
  lemma SetupKeepsOtherEntries(files: set<string>, markerId: string, otherId: string)
    requires otherId != markerId
    ensures NonMarkers(AfterSetup(files, markerId)) == NonMarkers(files)
    ensures !CheckMarkerExists(otherId, AfterSetup(files, markerId))
  {
    MarkerFileIsMarker(markerId);
    MarkerFileIsMarker(otherId);
    MarkerNameInjective(otherId, markerId);
  }

  /** Different ids have different marker names. */
  lemma MarkerNameInjective(a: string, b: string)
    ensures MarkerFileName(a) == MarkerFileName(b) ==> a == b
  {
    var n := |MarkerPrefix| + 1;
    assert a == MarkerFileName(a)[n..n + |a|];
    assert b == MarkerFileName(b)[n..n + |b|];
  }

  /** Setting up the same marker twice leaves the same directory. */
  lemma SetupIdempotent(files: set<string>, markerId: string)
    ensures AfterSetup(AfterSetup(files, markerId), markerId) == AfterSetup(files, markerId)
  {
    MarkerFileIsMarker(markerId);
  }

}
