/** The resources the application owns, and the ordering facts a setup and a
    teardown must respect. */
module Resources {

  /** WindowLibrary stands for glfwInit / glfwTerminate. */
  datatype Resource = WindowLibrary | Window | Instance | Messenger | Surface | Device

  /** child is made from parent and must not outlive it. */
  predicate DependsOn(child: Resource, parent: Resource)
  {
    || (parent == WindowLibrary && child == Window)
    || (parent == Window && child == Surface)
    || (parent == Instance && child in {Messenger, Surface, Device})
  }

  /** Nothing is created before a resource it depends on. */
  predicate CreatedAfterDependencies(order: seq<Resource>)
  {
    forall i, j :: 0 <= i < j < |order| ==> !DependsOn(order[i], order[j])
  }

  /** Nothing is destroyed after a resource it depends on. */
  predicate DestroyedBeforeDependencies(order: seq<Resource>)
  {
    forall i, j :: 0 <= i < j < |order| ==> !DependsOn(order[j], order[i])
  }

  predicate Distinct(order: seq<Resource>)
  {
    forall i, j :: 0 <= i < j < |order| ==> order[i] != order[j]
  }

  // The general fact: an order sorted by Level (rising to create, falling to
  // destroy) respects every dependency. The application's concrete creation
  // and teardown orders are instances of it.

  /** How deep a resource sits in the dependency graph: each resource is one
      level above the deepest resource it depends on. */
  function Level(r: Resource): nat
  {
    match r
    case WindowLibrary => 0
    case Window => 1
    case Instance => 1
    case Messenger => 2
    case Surface => 2
    case Device => 2
  }

  lemma LevelRespectsDependencies(child: Resource, parent: Resource)
    requires DependsOn(child, parent)
    ensures Level(parent) < Level(child)
  {
  }

  lemma {:induction false} LevelsRise(order: seq<Resource>, i: nat, j: nat)
    requires forall k :: 0 <= k < |order| - 1 ==> Level(order[k]) <= Level(order[k + 1])
    requires i <= j < |order|
    ensures Level(order[i]) <= Level(order[j])
    decreases j - i
  {
    if i < j {
      LevelsRise(order, i + 1, j);
    }
  }

  lemma {:induction false} LevelsFall(order: seq<Resource>, i: nat, j: nat)
    requires forall k :: 0 <= k < |order| - 1 ==> Level(order[k]) >= Level(order[k + 1])
    requires i <= j < |order|
    ensures Level(order[i]) >= Level(order[j])
    decreases j - i
  {
    if i < j {
      LevelsFall(order, i + 1, j);
    }
  }

  /** An order whose levels never go down creates nothing before what it
      depends on. */
  lemma RisingLevelsCreateSafely(order: seq<Resource>)
    requires forall k :: 0 <= k < |order| - 1 ==> Level(order[k]) <= Level(order[k + 1])
    ensures CreatedAfterDependencies(order)
  {
    forall i, j | 0 <= i < j < |order|
      ensures !DependsOn(order[i], order[j])
    {
      LevelsRise(order, i, j);
      if DependsOn(order[i], order[j]) {
        LevelRespectsDependencies(order[i], order[j]);
      }
    }
  }

  /** An order whose levels never go up destroys nothing after what it depends
      on. */
  lemma FallingLevelsDestroySafely(order: seq<Resource>)
    requires forall k :: 0 <= k < |order| - 1 ==> Level(order[k]) >= Level(order[k + 1])
    ensures DestroyedBeforeDependencies(order)
  {
    forall i, j | 0 <= i < j < |order|
      ensures !DependsOn(order[j], order[i])
    {
      LevelsFall(order, i, j);
      if DependsOn(order[j], order[i]) {
        LevelRespectsDependencies(order[j], order[i]);
      }
    }
  }
}
