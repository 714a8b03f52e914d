/**
 * The corex scene base: two fixed tables of 32 availability flags (render
 * layers and sorting layers), the list of entities the scene created, and the
 * per-entity components kept in the entity registry. The registry is
 * modelled as one map per component type, keyed by entity id; ids are handed
 * out fresh by a counter.
 */
module CoreScene {
  import opened CorexMath

  const NumLayers: nat := 32
  const NumSortingLayers: nat := 32

  /** `int8_t`, the type of `Layer`, `SortingLayer` and sorting-layer ids. */
  newtype Int8 = x: int | -128 <= x < 128

  newtype Byte = x: int | 0 <= x < 256

  /** An entity id of the registry. */
  type Entity = nat

  datatype EntitySceneProperty = EntitySceneProperty(layer: Int8, sortingLayer: Int8)

  /** The values of `SceneStatus` this model needs; its header is not part of the model. */
  datatype SceneStatus = Running | Done

  datatype RenderableType = Text | Sprite | PrimitiveRectangle | PrimitivePolygon | LineSegments | PrimitiveCircle

  /** `SDL_Color`. */
  datatype Colour = Colour(r: Byte, g: Byte, b: Byte, a: Byte)

  /** The `Position` component: coordinates, depth and sorting layer. */
  datatype Position = Position(x: real, y: real, z: real, sortingLayer: Int8)

  datatype RenderCircle = RenderCircle(radius: real, colour: Colour, isFilled: bool)

  datatype RenderLineSegments = RenderLineSegments(points: seq<Point>, colour: Colour)

  class Scene {
    var layerAvailabilityStatuses: array<bool>
    var sortingLayerAvailabilityStatuses: array<bool>
    var entities: seq<Entity>
    var status: SceneStatus

    // The registry: one map per component type.
    var properties: map<Entity, EntitySceneProperty>
    var positions: map<Entity, Position>
    var renderables: map<Entity, RenderableType>
    var circles: map<Entity, RenderCircle>
    var lineSegments: map<Entity, RenderLineSegments>
    var nextEntity: Entity

    /**
     * The two tables have 32 entries and are distinct arrays; the scene's
     * entities are exactly the registered ones, every id is below the
     * counter, and components are only attached to registered entities.
     */
    ghost predicate Valid()
      reads this
    {
      layerAvailabilityStatuses.Length == NumLayers &&
      sortingLayerAvailabilityStatuses.Length == NumSortingLayers &&
      layerAvailabilityStatuses != sortingLayerAvailabilityStatuses &&
      (forall i :: 0 <= i < |entities| ==> entities[i] in properties) &&
      (forall e :: e in properties ==> e < nextEntity && e in entities) &&
      positions.Keys <= properties.Keys &&
      renderables.Keys <= properties.Keys &&
      circles.Keys <= properties.Keys &&
      lineSegments.Keys <= properties.Keys
    }

    /**
     * A scene with every layer and sorting layer enabled and no entities.
     * The source leaves `status` uninitialised; the model takes the value
     * it happens to hold as `initialStatus`.
     */
    constructor (initialStatus: SceneStatus)
      ensures Valid()
      ensures fresh(layerAvailabilityStatuses) && fresh(sortingLayerAvailabilityStatuses)
      ensures forall i :: 0 <= i < NumLayers ==> layerAvailabilityStatuses[i]
      ensures forall i :: 0 <= i < NumSortingLayers ==> sortingLayerAvailabilityStatuses[i]
      ensures entities == [] && properties == map[] && status == initialStatus
      ensures positions == map[] && renderables == map[] && circles == map[] && lineSegments == map[]
    {
      var layers := new bool[NumLayers];
      var sortingLayers := new bool[NumSortingLayers];
      for i := 0 to NumLayers
        invariant forall k :: 0 <= k < i ==> layers[k]
      {
        layers[i] := true;
      }
      for i := 0 to NumSortingLayers
        invariant forall k :: 0 <= k < i ==> sortingLayers[k]
        invariant forall k :: 0 <= k < NumLayers ==> layers[k]
      {
        sortingLayers[i] := true;
      }
      layerAvailabilityStatuses := layers;
      sortingLayerAvailabilityStatuses := sortingLayers;
      entities := [];
      status := initialStatus;
      properties := map[];
      positions := map[];
      renderables := map[];
      circles := map[];
      lineSegments := map[];
      nextEntity := 0;
    }

    method GetStatus() returns (s: SceneStatus)
      ensures s == status
    {
      s := status;
    }

    method SetSceneStatus(s: SceneStatus)
      modifies this`status
      ensures status == s
    {
      status := s;
    }

    /** A fresh entity, appended to the scene's list, on layer 1 and sorting layer 1. */
    method CreateSceneEntity() returns (e: Entity)
      requires Valid()
      modifies this`entities, this`properties, this`nextEntity
      ensures Valid()
      ensures e !in old(properties) && e !in old(entities)
      ensures entities == old(entities) + [e]
      ensures properties == old(properties)[e := EntitySceneProperty(1, 1)]
    {
      e := nextEntity;
      nextEntity := nextEntity + 1;
      properties := properties[e := EntitySceneProperty(1, 1)];
      entities := entities + [e];
    }

    /** `registry.patch`: only the `layer` field of e's record changes. */
    method SetEntityLayer(e: Entity, layer: Int8)
      requires Valid() && e in properties
      modifies this`properties
      ensures Valid()
      ensures properties == old(properties)[e := old(properties)[e].(layer := layer)]
    {
      properties := properties[e := properties[e].(layer := layer)];
    }

    method GetEntityLayer(e: Entity) returns (layer: Int8)
      requires e in properties
      ensures layer == properties[e].layer
    {
      layer := properties[e].layer;
    }

    /** `registry.patch`: only the `sortingLayer` field of e's record changes. */
    method SetEntitySortingLayer(e: Entity, layer: Int8)
      requires Valid() && e in properties
      modifies this`properties
      ensures Valid()
      ensures properties == old(properties)[e := old(properties)[e].(sortingLayer := layer)]
    {
      properties := properties[e := properties[e].(sortingLayer := layer)];
    }

    /** As written: reads the `layer` field, not `sortingLayer`. */
    method GetEntitySortingLayer(e: Entity) returns (layer: Int8)
      requires e in properties
      ensures layer == properties[e].layer
    {
      layer := properties[e].layer;
    }

    /** The evidently intended getter: reads the `sortingLayer` field. */
    method GetEntitySortingLayerCorrected(e: Entity) returns (layer: Int8)
      requires e in properties
      ensures layer == properties[e].sortingLayer
    {
      layer := properties[e].sortingLayer;
    }

    method EnableLayer(layer: Int8)
      requires Valid() && 0 <= layer as int < NumLayers
      modifies layerAvailabilityStatuses
      ensures layerAvailabilityStatuses[layer] == true
      ensures forall k :: 0 <= k < NumLayers && k != layer as int ==>
                layerAvailabilityStatuses[k] == old(layerAvailabilityStatuses[k])
    {
      layerAvailabilityStatuses[layer] := true;
    }

    method DisableLayer(layer: Int8)
      requires Valid() && 0 <= layer as int < NumLayers
      modifies layerAvailabilityStatuses
      ensures layerAvailabilityStatuses[layer] == false
      ensures forall k :: 0 <= k < NumLayers && k != layer as int ==>
                layerAvailabilityStatuses[k] == old(layerAvailabilityStatuses[k])
    {
      layerAvailabilityStatuses[layer] := false;
    }

    method IsLayerEnabled(layer: Int8) returns (enabled: bool)
      requires Valid() && 0 <= layer as int < NumLayers
      ensures enabled == layerAvailabilityStatuses[layer]
    {
      enabled := layerAvailabilityStatuses[layer];
    }

    method EnableSortingLayer(layer: Int8)
      requires Valid() && 0 <= layer as int < NumSortingLayers
      modifies sortingLayerAvailabilityStatuses
      ensures sortingLayerAvailabilityStatuses[layer] == true
      ensures forall k :: 0 <= k < NumSortingLayers && k != layer as int ==>
                sortingLayerAvailabilityStatuses[k] == old(sortingLayerAvailabilityStatuses[k])
    {
      sortingLayerAvailabilityStatuses[layer] := true;
    }

    method DisableSortingLayer(layer: Int8)
      requires Valid() && 0 <= layer as int < NumSortingLayers
      modifies sortingLayerAvailabilityStatuses
      ensures sortingLayerAvailabilityStatuses[layer] == false
      ensures forall k :: 0 <= k < NumSortingLayers && k != layer as int ==>
                sortingLayerAvailabilityStatuses[k] == old(sortingLayerAvailabilityStatuses[k])
    {
      sortingLayerAvailabilityStatuses[layer] := false;
    }

    method IsSortingLayerEnabled(layer: Int8) returns (enabled: bool)
      requires Valid() && 0 <= layer as int < NumSortingLayers
      ensures enabled == sortingLayerAvailabilityStatuses[layer]
    {
      enabled := sortingLayerAvailabilityStatuses[layer];
    }

    /** One new entity, at (0, 0, z), rendered as line segments through `points`. */
    method CreateLineSegmentsEntity(z: real, points: seq<Point>, colour: Colour, sortingLayerId: Int8)
      returns (e: Entity)
      requires Valid()
      modifies this`entities, this`properties, this`nextEntity, this`positions, this`renderables, this`lineSegments
      ensures Valid()
      ensures e !in old(properties) && entities == old(entities) + [e]
      ensures properties == old(properties)[e := EntitySceneProperty(1, 1)]
      ensures positions == old(positions)[e := Position(0.0, 0.0, z, sortingLayerId)]
      ensures renderables == old(renderables)[e := LineSegments]
      ensures lineSegments == old(lineSegments)[e := RenderLineSegments(points, colour)]
    {
      e := CreateSceneEntity();
      positions := positions[e := Position(0.0, 0.0, z, sortingLayerId)];
      renderables := renderables[e := LineSegments];
      lineSegments := lineSegments[e := RenderLineSegments(points, colour)];
    }

    /** One new entity, at (x, y, z), rendered as a circle. */
    method CreateCircleEntity(x: real, y: real, z: real, radius: real, isFilled: bool, colour: Colour,
                              sortingLayerId: Int8)
      returns (e: Entity)
      requires Valid()
      modifies this`entities, this`properties, this`nextEntity, this`positions, this`renderables, this`circles
      ensures Valid()
      ensures e !in old(properties) && entities == old(entities) + [e]
      ensures properties == old(properties)[e := EntitySceneProperty(1, 1)]
      ensures positions == old(positions)[e := Position(x, y, z, sortingLayerId)]
      ensures renderables == old(renderables)[e := PrimitiveCircle]
      ensures circles == old(circles)[e := RenderCircle(radius, colour, isFilled)]
    {
      e := CreateSceneEntity();
      positions := positions[e := Position(x, y, z, sortingLayerId)];
      renderables := renderables[e := PrimitiveCircle];
      circles := circles[e := RenderCircle(radius, colour, isFilled)];
    }
  }

  /**
   * The as-written sorting-layer getter ignores the setter: after setting
   * sorting layer 5 on a fresh entity, it still reads 1 (its layer).
   */
  method SortingLayerGetterIgnoresSetter() returns (written: Int8, read: Int8)
    ensures written == 5 && read == 1 && read != written
  {
    var scene := new Scene(Running);
    var e := scene.CreateSceneEntity();
    written := 5;
    scene.SetEntitySortingLayer(e, written);
    read := scene.GetEntitySortingLayer(e);
  }

  /**
   * On any scene and any entity it holds, with the corrected getter: the
   * sorting layer and the layer read back as written, each setter leaving
   * the other field alone.
   */
  method SortingLayerRoundTrip(scene: Scene, e: Entity, written: Int8, layer: Int8)
    returns (readSorting: Int8, readLayer: Int8)
    requires scene.Valid() && e in scene.properties
    modifies scene`properties
    ensures scene.Valid() && e in scene.properties
    ensures readSorting == written && readLayer == layer
    ensures scene.properties == old(scene.properties)[e := EntitySceneProperty(layer, written)]
  {
    scene.SetEntityLayer(e, layer);
    scene.SetEntitySortingLayer(e, written);
    readSorting := scene.GetEntitySortingLayerCorrected(e);
    readLayer := scene.GetEntityLayer(e);
  }

  /**
   * On any scene the two availability tables are independent: disabling
   * layer l leaves every sorting layer, l included, as it was.
   */
  method LayerTablesIndependent(scene: Scene, l: Int8) returns (layerOn: bool, sortingOn: bool)
    requires scene.Valid() && 0 <= l as int < NumLayers
    modifies scene.layerAvailabilityStatuses
    ensures !layerOn
    ensures sortingOn == old(scene.sortingLayerAvailabilityStatuses[l])
    ensures scene.sortingLayerAvailabilityStatuses[..] == old(scene.sortingLayerAvailabilityStatuses[..])
  {
    scene.DisableLayer(l);
    layerOn := scene.IsLayerEnabled(l);
    sortingOn := scene.IsSortingLayerEnabled(l);
  }
}
