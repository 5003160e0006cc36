/** world_data.py: the static description of the arena (boundary walls, buildings, ground,
    lights) and the random obstacles placed away from the buildings. The random numbers
    `random.random()` would draw are given as a sequence. */
module World {
  import opened Geometry

  datatype Block = Block(position: Vec3, size: Vec3, color: int)

  datatype Building = Building(block: Block, texture: string)

  datatype Ground = Ground(size: int, texture: string, textureRepeat: int)

  datatype Lights = Lights(ambientColor: int, ambientIntensity: real, sunColor: int, sunIntensity: real,
                           sunPosition: Vec3, shadowSize: int)

  datatype WorldData = WorldData(boundaryWalls: seq<Block>, buildings: seq<Building>, ground: Ground,
                                 lights: Lights, obstacles: seq<Block>)

  /** A circle around a building's centre that obstacles keep out of. */
  datatype Zone = Zone(x: real, z: real, radius: real)

  const WallColor: int := 0x555555
  const ObstacleColor: int := 0x808080
  /** `get_world_data` asks for this many obstacle attempts. */
  const ObstacleCount: nat := 30
  /** Each attempt draws size, height, x and z, in that order. */
  const DrawsPerObstacle: nat := 4
  /** Obstacle x and z are `(random() - 0.5) * 80`. */
  const Spread: real := 80.0

  const BoundaryWalls: seq<Block> := [
    Block(Vec3(0.0, 5.0, -50.0), Vec3(100.0, 10.0, 2.0), WallColor),
    Block(Vec3(0.0, 5.0, 50.0), Vec3(100.0, 10.0, 2.0), WallColor),
    Block(Vec3(-50.0, 5.0, 0.0), Vec3(2.0, 10.0, 100.0), WallColor),
    Block(Vec3(50.0, 5.0, 0.0), Vec3(2.0, 10.0, 100.0), WallColor)]

  const Buildings: seq<Building> := [
    Building(Block(Vec3(-20.0, 0.0, -15.0), Vec3(10.0, 8.0, 12.0), 0x888888), "concrete.jpg"),
    Building(Block(Vec3(15.0, 0.0, 20.0), Vec3(8.0, 5.0, 8.0), 0x999999), "concrete.jpg")]

  /** `building_positions` in `_generate_obstacles`. */
  const BuildingZones: seq<Zone> := [Zone(-20.0, -15.0, 15.0), Zone(15.0, 20.0, 10.0)]

  /** Random values in [0, 1), as `random.random()` returns them. */
  predicate UnitDraws(randoms: seq<real>)
  {
    forall i :: 0 <= i < |randoms| ==> 0.0 <= randoms[i] < 1.0
  }

  /** The obstacle attempt `i` builds from its four draws, before the building test. */
  function Candidate(randoms: seq<real>, i: nat): Block
    requires DrawsPerObstacle * i + DrawsPerObstacle <= |randoms|
  {
    var base := DrawsPerObstacle * i;
    var size := 1.0 + randoms[base] * 2.0;
    var height := 1.0 + randoms[base + 1] * 3.0;
    var position := Vec3((randoms[base + 2] - 0.5) * Spread, height / 2.0, (randoms[base + 3] - 0.5) * Spread);
    Block(position, Vec3(size, height, size), ObstacleColor)
  }

  /** Not closer (in x/z) than its radius to the centre of a zone; with both sides
      non-negative, `sqrt(d) < radius` is `d < radius * radius`. */
  predicate OutsideZone(p: Vec3, zone: Zone)
  {
    FlatDistSq(p.x, p.z, zone.x, zone.z) >= zone.radius * zone.radius
  }

  predicate ClearOfBuildings(p: Vec3)
  {
    forall j :: 0 <= j < |BuildingZones| ==> OutsideZone(p, BuildingZones[j])
  }

  /** The obstacles kept from the first `n` attempts, in order. */
  function Kept(randoms: seq<real>, n: nat): seq<Block>
    requires DrawsPerObstacle * n <= |randoms|
  {
    if n == 0 then []
    else
      var c := Candidate(randoms, n - 1);
      Kept(randoms, n - 1) + (if ClearOfBuildings(c.position) then [c] else [])
  }

  /** The shape and placement every generated obstacle has. */
  predicate WellPlaced(o: Block)
  {
    && 1.0 <= o.size.x < 3.0 && o.size.z == o.size.x
    && 1.0 <= o.size.y < 4.0 && o.position.y == o.size.y / 2.0
    && -40.0 <= o.position.x < 40.0 && -40.0 <= o.position.z < 40.0
    && o.color == ObstacleColor
    && ClearOfBuildings(o.position)
  }

  lemma CandidateShape(randoms: seq<real>, i: nat)
    requires DrawsPerObstacle * i + DrawsPerObstacle <= |randoms| && UnitDraws(randoms)
    ensures var c := Candidate(randoms, i);
      ClearOfBuildings(c.position) ==> WellPlaced(c)
  {
    var base := DrawsPerObstacle * i;
    assert 0.0 <= randoms[base] < 1.0 && 0.0 <= randoms[base + 1] < 1.0;
    assert 0.0 <= randoms[base + 2] < 1.0 && 0.0 <= randoms[base + 3] < 1.0;
  }

  /** At most one obstacle per attempt, and each kept one is well placed: sized in [1, 3)
      by [1, 4), resting on the ground, inside [-40, 40) and out of both building zones. */
  lemma {:induction false} KeptWellPlaced(randoms: seq<real>, n: nat)
    requires DrawsPerObstacle * n <= |randoms| && UnitDraws(randoms)
    ensures |Kept(randoms, n)| <= n
    ensures forall k :: 0 <= k < |Kept(randoms, n)| ==> WellPlaced(Kept(randoms, n)[k])
  {
    if n > 0 {
      KeptWellPlaced(randoms, n - 1);
      CandidateShape(randoms, n - 1);
    }
  }

  /** An attempt is kept exactly when its position is clear of both buildings. */
  lemma {:induction false} KeptIffClear(randoms: seq<real>, n: nat)
    requires DrawsPerObstacle * n + DrawsPerObstacle <= |randoms|
    ensures var c := Candidate(randoms, n);
      Kept(randoms, n + 1) == Kept(randoms, n) + [c] <==> ClearOfBuildings(c.position)
  {
    var c := Candidate(randoms, n);
    if !ClearOfBuildings(c.position) {
      assert |Kept(randoms, n + 1)| == |Kept(randoms, n)|;
    }
  }

  /** `_generate_obstacles(count)`: `count` attempts, each kept when no building is
      closer than its radius. */
  method GenerateObstacles(count: nat, randoms: seq<real>) returns (obstacles: seq<Block>)
    requires |randoms| == DrawsPerObstacle * count
    ensures obstacles == Kept(randoms, count)
    ensures UnitDraws(randoms) ==> |obstacles| <= count && forall k :: 0 <= k < |obstacles| ==> WellPlaced(obstacles[k])
  {
    obstacles := [];
    var i := 0;
    while i < count
      invariant 0 <= i <= count
      invariant obstacles == Kept(randoms, i)
    {
      var base := DrawsPerObstacle * i;
      var size := 1.0 + randoms[base] * 2.0;
      var height := 1.0 + randoms[base + 1] * 3.0;
      var position := Vec3((randoms[base + 2] - 0.5) * Spread, height / 2.0, (randoms[base + 3] - 0.5) * Spread);
      var validPosition := true;
      var j := 0;
      while j < |BuildingZones|
        invariant 0 <= j <= |BuildingZones|
        invariant validPosition <==> forall m :: 0 <= m < j ==> OutsideZone(position, BuildingZones[m])
      {
        var zone := BuildingZones[j];
        if FlatDistSq(position.x, position.z, zone.x, zone.z) < zone.radius * zone.radius {
          validPosition := false;
          break;
        }
        j := j + 1;
      }
      assert validPosition <==> ClearOfBuildings(position);
      if validPosition {
        obstacles := obstacles + [Block(position, Vec3(size, height, size), ObstacleColor)];
      }
      i := i + 1;
    }
    if UnitDraws(randoms) {
      KeptWellPlaced(randoms, count);
    }
  }

  /** `get_world_data()`, with the 120 draws its obstacle generation makes. */
  method GetWorldData(randoms: seq<real>) returns (w: WorldData)
    requires |randoms| == DrawsPerObstacle * ObstacleCount
    ensures w.boundaryWalls == BoundaryWalls && w.buildings == Buildings
    ensures w.ground == Ground(500, "ground.jpg", 100)
    ensures w.lights == Lights(0xffffff, 0.6, 0xffffff, 0.8, Vec3(50.0, 100.0, 50.0), 100)
    ensures w.obstacles == Kept(randoms, ObstacleCount)
  {
    var obstacles := GenerateObstacles(ObstacleCount, randoms);
    w := WorldData(BoundaryWalls, Buildings, Ground(500, "ground.jpg", 100),
                   Lights(0xffffff, 0.6, 0xffffff, 0.8, Vec3(50.0, 100.0, 50.0), 100), obstacles);
  }

  /** The four boundary walls close the 100 by 100 arena: one 10 high centred on each of
      z = -50, z = 50, x = -50 and x = 50, each spanning the full side. */
  lemma WallsEncloseArena()
    ensures |BoundaryWalls| == 4
    ensures forall i :: 0 <= i < 4 ==> BoundaryWalls[i].position.y == 5.0 && BoundaryWalls[i].size.y == 10.0
    ensures BoundaryWalls[0].position.z == -50.0 && BoundaryWalls[1].position.z == 50.0
    ensures BoundaryWalls[2].position.x == -50.0 && BoundaryWalls[3].position.x == 50.0
    ensures BoundaryWalls[0].size.x == 100.0 && BoundaryWalls[1].size.x == 100.0
    ensures BoundaryWalls[2].size.z == 100.0 && BoundaryWalls[3].size.z == 100.0
  {
  }

  /** Each building zone is centred on its building's footprint. */
  lemma ZonesMatchBuildings()
    ensures |BuildingZones| == |Buildings|
    ensures forall j :: 0 <= j < |Buildings| ==>
      BuildingZones[j].x == Buildings[j].block.position.x && BuildingZones[j].z == Buildings[j].block.position.z
  {
  }
}
