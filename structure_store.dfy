/**
  The structure store: the provider that holds the building's dimensions and
  its list of openings, together with the selected wall and the selected
  opening. Every handler replaces the stored value with a new one built by
  spreading, mapping or filtering the previous one; each is modelled as one
  atomic state change of a class whose fields are those stored values.
*/
module StructureStore {
  import opened Common
  import Keyed

  datatype OpeningKind = Door | Window

  /** An opening in a wall: sizes and offsets in metres from the wall's left and bottom edges. */
  datatype Opening = Opening(id: string, kind: OpeningKind, wall: Wall, width: real, height: real,
                             distanceFromLeft: real, distanceFromBottom: real)

  /** An opening before the store has given it an id. */
  datatype NewOpening = NewOpening(kind: OpeningKind, wall: Wall, width: real, height: real,
                                   distanceFromLeft: real, distanceFromBottom: real)
  {
    function WithId(id: string): Opening {
      Opening(id, kind, wall, width, height, distanceFromLeft, distanceFromBottom)
    }
  }

  /** A partial opening: the fields an update carries; the id is never among them. */
  datatype OpeningPatch = OpeningPatch(kind: Option<OpeningKind>, wall: Option<Wall>, width: Option<real>,
                                       height: Option<real>, distanceFromLeft: Option<real>,
                                       distanceFromBottom: Option<real>)

  datatype StructureData = StructureData(width: real, length: real, gutterHeight: real, roofAngle: real,
                                         openings: seq<Opening>)

  /** A partial structure: the fields an update carries. */
  datatype StructurePatch = StructurePatch(width: Option<real>, length: Option<real>, gutterHeight: Option<real>,
                                           roofAngle: Option<real>, openings: Option<seq<Opening>>)

  const NoOpeningChange := OpeningPatch(None, None, None, None, None, None)
  const NoStructureChange := StructurePatch(None, None, None, None, None)

  /** The message useStructure throws outside a provider. */
  const OutsideProvider := "useStructure must be used within a StructureProvider"

  /** The prefix of every id the store hands out; the rest is a timestamp. */
  const OpeningIdPrefix := "opening-"

  /** A 6 m by 8 m building, 3 m to the gutter, a 15 degree roof and no openings. */
  const DefaultStructure := StructureData(6.0, 8.0, 3.0, 15.0, [])

  /** The spread { ...prev, ...data } on a structure. */
  function MergeStructure(s: StructureData, p: StructurePatch): StructureData {
    StructureData(Override(p.width, s.width), Override(p.length, s.length),
                  Override(p.gutterHeight, s.gutterHeight), Override(p.roofAngle, s.roofAngle),
                  Override(p.openings, s.openings))
  }

  /** The spread { ...opening, ...data } on an opening; the id stays. */
  function MergeOpening(o: Opening, p: OpeningPatch): Opening {
    Opening(o.id, Override(p.kind, o.kind), Override(p.wall, o.wall), Override(p.width, o.width),
            Override(p.height, o.height), Override(p.distanceFromLeft, o.distanceFromLeft),
            Override(p.distanceFromBottom, o.distanceFromBottom))
  }

  /** Merging a structure patch overwrites exactly the fields the patch carries and keeps every other one. */
  lemma MergeOverwritesPresentFields(s: StructureData, p: StructurePatch)
    ensures var r := MergeStructure(s, p);
      (p.width.Some? ==> r.width == p.width.value) && (p.width.None? ==> r.width == s.width)
      && (p.length.Some? ==> r.length == p.length.value) && (p.length.None? ==> r.length == s.length)
      && (p.gutterHeight.Some? ==> r.gutterHeight == p.gutterHeight.value)
      && (p.gutterHeight.None? ==> r.gutterHeight == s.gutterHeight)
      && (p.roofAngle.Some? ==> r.roofAngle == p.roofAngle.value) && (p.roofAngle.None? ==> r.roofAngle == s.roofAngle)
      && (p.openings.Some? ==> r.openings == p.openings.value) && (p.openings.None? ==> r.openings == s.openings)
  {
  }

  /** An empty patch changes nothing, and applying the same patch twice is applying it once. */
  lemma MergeIdentityAndIdempotence(s: StructureData, p: StructurePatch)
    ensures MergeStructure(s, NoStructureChange) == s
    ensures MergeStructure(MergeStructure(s, p), p) == MergeStructure(s, p)
  {
  }

  /** Merging an opening keeps its id, and an empty patch leaves it as it was. */
  lemma MergeOpeningKeepsId(o: Opening, p: OpeningPatch)
    ensures MergeOpening(o, p).id == o.id
    ensures MergeOpening(o, NoOpeningChange) == o
  {
  }

  /** The id of an opening, the key the store's updates and removals match on. */
  function OpeningId(o: Opening): string {
    o.id
  }

  /** updateOpening's map over the list: the openings with that id merged with the patch. */
  function UpdateOpenings(os: seq<Opening>, id: string, p: OpeningPatch): seq<Opening> {
    Keyed.UpdateById(os, OpeningId, id, o => MergeOpening(o, p))
  }

  /** removeOpening's filter over the list: the openings with another id. */
  function RemoveOpenings(os: seq<Opening>, id: string): seq<Opening> {
    Keyed.RemoveById(os, OpeningId, id)
  }

  /**
    updateOpening keeps the length, the order and every id of the list, merges
    the patch into the openings with that id and leaves the others untouched.
  */
  lemma UpdateOpeningsKeepsIds(os: seq<Opening>, id: string, p: OpeningPatch)
    ensures var r := UpdateOpenings(os, id, p);
      |r| == |os|
      && (forall k :: 0 <= k < |os| ==> r[k].id == os[k].id)
      && (forall k :: 0 <= k < |os| && os[k].id == id ==> r[k] == MergeOpening(os[k], p))
      && (forall k :: 0 <= k < |os| && os[k].id != id ==> r[k] == os[k])
  {
    var r := UpdateOpenings(os, id, p);
    forall k | 0 <= k < |os| ensures r[k].id == os[k].id {
      if os[k].id == id {
        MergeOpeningKeepsId(os[k], p);
      }
    }
  }

  /**
    After removeOpening no opening carries the id, every opening with another
    id is still there, and the survivors keep their relative order.
  */
  lemma RemoveOpeningsRemovesExactlyTheId(os: seq<Opening>, id: string, a: seq<Opening>, b: seq<Opening>)
    ensures var r := RemoveOpenings(os, id);
      (forall k :: 0 <= k < |r| ==> r[k].id != id && r[k] in os)
      && (forall k :: 0 <= k < |os| && os[k].id != id ==> os[k] in r)
      && RemoveOpenings(a + b, id) == RemoveOpenings(a, id) + RemoveOpenings(b, id)
  {
    Keyed.RemoveByIdKeepsOthers(os, OpeningId, id);
    Keyed.RemoveByIdDistributes(a, b, OpeningId, id);
  }

  /** An opening added under a fresh id and removed again leaves the list as it was; editing it first changes nothing. */
  lemma AddedOpeningRemovesCleanly(os: seq<Opening>, opening: NewOpening, newId: string, p: OpeningPatch)
    requires forall k :: 0 <= k < |os| ==> os[k].id != newId
    ensures RemoveOpenings(os + [opening.WithId(newId)], newId) == os
    ensures RemoveOpenings(UpdateOpenings(os + [opening.WithId(newId)], newId, p), newId) == os
  {
    var added := opening.WithId(newId);
    Keyed.AddThenRemove(os, added, OpeningId);
    forall o: Opening ensures OpeningId((o' => MergeOpening(o', p))(o)) == OpeningId(o) {
      MergeOpeningKeepsId(o, p);
    }
    Keyed.RemoveAfterUpdate(os + [added], OpeningId, newId, o => MergeOpening(o, p));
  }

  /** useStructure: the store when called inside a provider, otherwise the error it throws. */
  function UseStructure(context: Option<StructureProvider>): (r: Result<StructureProvider>)
    ensures r.Ok? <==> context.Some?
    ensures r.Ok? ==> r.value == context.value
    ensures r.Err? ==> r.message == OutsideProvider
  {
    match context
    case Some(p) => Ok(p)
    case None => Err(OutsideProvider)
  }

  /** The provider: the structure, the selected wall and the selected opening. */
  class StructureProvider {
    var structure: StructureData
    var selectedWall: Option<string>
    var selectedOpening: Option<string>

    /** A new provider holds the default structure and selects nothing. */
    constructor()
      ensures structure == DefaultStructure
      ensures structure.openings == []
      ensures selectedWall == None && selectedOpening == None
    {
      structure := DefaultStructure;
      selectedWall := None;
      selectedOpening := None;
    }

    /** updateStructure: spread the partial structure over the current one. */
    method UpdateStructure(data: StructurePatch)
      modifies this
      ensures structure == MergeStructure(old(structure), data)
      ensures selectedWall == old(selectedWall) && selectedOpening == old(selectedOpening)
    {
      structure := MergeStructure(structure, data);
    }

    /**
      addOpening: give the opening the id "opening-" followed by the stamp
      (a timestamp in the structure context), append it, and select it.
    */
    method AddOpening(opening: NewOpening, stamp: string)
      modifies this
      ensures structure.openings == old(structure.openings) + [opening.WithId(OpeningIdPrefix + stamp)]
      ensures structure == old(structure).(openings := structure.openings)
      ensures selectedOpening == Some(OpeningIdPrefix + stamp)
      ensures selectedWall == old(selectedWall)
    {
      var added := opening.WithId(OpeningIdPrefix + stamp);
      structure := structure.(openings := structure.openings + [added]);
      selectedOpening := Some(added.id);
    }

    /** updateOpening: merge the patch into every opening with that id. */
    method UpdateOpening(id: string, data: OpeningPatch)
      modifies this
      ensures structure == old(structure).(openings := UpdateOpenings(old(structure.openings), id, data))
      ensures selectedWall == old(selectedWall) && selectedOpening == old(selectedOpening)
    {
      structure := structure.(openings := UpdateOpenings(structure.openings, id, data));
    }

    /** removeOpening: drop every opening with that id; clear the selection only when it was that id. */
    method RemoveOpening(id: string)
      modifies this
      ensures structure == old(structure).(openings := RemoveOpenings(old(structure.openings), id))
      ensures old(selectedOpening) == Some(id) ==> selectedOpening == None
      ensures old(selectedOpening) != Some(id) ==> selectedOpening == old(selectedOpening)
      ensures selectedWall == old(selectedWall)
    {
      structure := structure.(openings := RemoveOpenings(structure.openings, id));
      if selectedOpening == Some(id) {
        selectedOpening := None;
      }
    }

    method SetSelectedWall(wall: Option<string>)
      modifies this
      ensures selectedWall == wall
      ensures structure == old(structure) && selectedOpening == old(selectedOpening)
    {
      selectedWall := wall;
    }

    method SetSelectedOpening(id: Option<string>)
      modifies this
      ensures selectedOpening == id
      ensures structure == old(structure) && selectedWall == old(selectedWall)
    {
      selectedOpening := id;
    }
  }
}
