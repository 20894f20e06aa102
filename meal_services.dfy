/** `MealPlanService` (API key check) and `MealPlanSaver` (numbered plan files). */
module MealServices {
  import opened Common
  import opened Paths

  // ---------------------------------------------------------------- service

  /** A configured OpenAI client; the completion call itself is external. */
  datatype MealPlanService = MealPlanService(apiKey: string)

  datatype ServiceError = ValueError

  /** `MealPlanService(api_key)`: a missing or empty key raises `ValueError`. */
  function NewMealPlanService(apiKey: Text): (r: Result<MealPlanService, ServiceError>)
    ensures r.Failure? <==> apiKey == Null || apiKey == Str("")
    ensures r.Success? ==> apiKey == Str(r.value.apiKey) && r.value.apiKey != ""
  {
    match apiKey
    case Null => Failure(ValueError)
    case Str(k) => if k == "" then Failure(ValueError) else Success(MealPlanService(k))
  }

  // ------------------------------------------------------------ plan folder

  /** A numbered plan file: what `save_meal_plan` wrote (the generated text,
      verbatim), or something `json.load` cannot read. */
  datatype PlanFile = Plan(text: string) | Unreadable

  /** The numbered files of one family folder: index n stands for `n.json`. */
  type Folder = map<nat, PlanFile>

  /** How many used indices are at or above `from`: the probing loop's measure. */
  function UsedFrom(used: set<nat>, from: nat): nat
  {
    |set k | k in used && k >= from|
  }

  lemma UsedFromShrinks(used: set<nat>, from: nat)
    requires from in used
    ensures UsedFrom(used, from + 1) < UsedFrom(used, from)
  {
    var above := set k | k in used && k >= from + 1;
    var atOrAbove := set k | k in used && k >= from;
    assert atOrAbove == above + {from};
  }

  /** The least index at or above `from` that is not used. */
  function FirstFreeFrom(used: set<nat>, from: nat): (n: nat)
    ensures from <= n && n !in used
    ensures forall k :: from <= k < n ==> k in used
    decreases UsedFrom(used, from)
  {
    if from in used then
      UsedFromShrinks(used, from);
      FirstFreeFrom(used, from + 1)
    else
      from
  }

  /** The index `save_meal_plan` writes to: the least n >= 1 with no `n.json`. */
  function FirstFree(used: set<nat>): nat
  {
    FirstFreeFrom(used, 1)
  }

  /** Any index g >= 1 that is free while 1..g-1 are all used is the one chosen:
      a gap left by a removed file is filled before anything above it. */
  lemma FirstFreeIsGap(used: set<nat>, g: nat)
    requires 1 <= g && g !in used
    requires forall k :: 1 <= k < g ==> k in used
    ensures FirstFree(used) == g
  {
  }

  /** Writing `plan` to the first free index of `folder`; returns the new
      folder and the index written. */
  function SaveInto(folder: Folder, plan: string): (r: (Folder, nat))
    ensures var (after, n) := r;
      && n >= 1 && n !in folder
      && (forall k :: 1 <= k < n ==> k in folder)
      && after.Keys == folder.Keys + {n}
      && after[n] == Plan(plan)
      && (forall k :: k in folder ==> after[k] == folder[k])
  {
    var n := FirstFree(folder.Keys);
    (folder[n := Plan(plan)], n)
  }

  /** The folder holds exactly the files 1.json .. k.json. */
  ghost predicate HoldsOneTo(folder: Folder, k: nat)
  {
    forall i :: i in folder <==> 1 <= i <= k
  }

  /** A series of saves into one folder, in order; returns the final folder
      and the index each save wrote. */
  function SaveAll(folder: Folder, plans: seq<string>): (Folder, seq<nat>)
    decreases |plans|
  {
    if plans == [] then (folder, [])
    else
      var (next, n) := SaveInto(folder, plans[0]);
      var (last, ns) := SaveAll(next, plans[1..]);
      (last, [n] + ns)
  }

  /** Saves into a folder holding exactly 1..k write k+1, k+2, ... in turn and
      leave the folder holding 1..k+|plans|. */
  lemma {:induction false} SavesAreContiguous(folder: Folder, k: nat, plans: seq<string>)
    requires HoldsOneTo(folder, k)
    ensures HoldsOneTo(SaveAll(folder, plans).0, k + |plans|)
    ensures SaveAll(folder, plans).1 == seq(|plans|, j => k + 1 + j)
    decreases |plans|
  {
    if plans != [] {
      FirstFreeIsGap(folder.Keys, k + 1);
      var saved := SaveInto(folder, plans[0]);
      assert saved.1 == k + 1;
      assert HoldsOneTo(saved.0, k + 1);
      SavesAreContiguous(saved.0, k + 1, plans[1..]);
      var rest := SaveAll(saved.0, plans[1..]);
      assert SaveAll(folder, plans) == (rest.0, [k + 1] + rest.1);
      assert [k + 1] + rest.1 == seq(|plans|, j => k + 1 + j);
    }
  }

  /** From an empty folder, successive saves write 1, 2, 3, ... */
  lemma SavesFromEmptyFolder(plans: seq<string>)
    ensures SaveAll(map[], plans).1 == seq(|plans|, j => j + 1)
    ensures HoldsOneTo(SaveAll(map[], plans).0, |plans|)
  {
    var empty: Folder := map[];
    SavesAreContiguous(empty, 0, plans);
  }

  /** The probing loop of `save_meal_plan`. */
  method NextFreeIndex(used: set<nat>) returns (n: nat)
    ensures n >= 1 && n !in used
    ensures forall k :: 1 <= k < n ==> k in used
    ensures n == FirstFree(used)
  {
    n := 1;
    while n in used
      invariant n >= 1
      invariant forall k :: 1 <= k < n ==> k in used
      invariant FirstFreeFrom(used, n) == FirstFree(used)
      decreases UsedFrom(used, n)
    {
      UsedFromShrinks(used, n);
      n := n + 1;
    }
  }

  // ------------------------------------------------------------- the disk

  /** The plan folders on disk, by folder path. A folder that exists is a key,
      even when it holds no numbered file. */
  class PlanDisk {
    var folders: map<string, Folder>

    constructor (folders: map<string, Folder>)
      ensures this.folders == folders
    {
      this.folders := folders;
    }
  }

  /** The folder at `path`, empty when it does not exist. */
  function FolderAt(folders: map<string, Folder>, path: string): Folder
  {
    if path in folders then folders[path] else map[]
  }

  /** What the filesystem does to a save: nothing, refuse `makedirs`, or
      refuse the write of the plan file. */
  datatype DiskFault = NoFault | MakedirsFails | WriteFails

  /** `IOError("Failed to save meal plan: ...")`. */
  datatype SaveError = IOError

  /** The effect of `save_meal_plan` on the folders, and its result. */
  function SaveOutcome(folders: map<string, Folder>, folderPath: string, plan: string, fault: DiskFault)
    : (r: (map<string, Folder>, Result<string, SaveError>))
    ensures r.1.Success? ==> folderPath in r.0
    ensures r.1.Success? ==>
      var (after, n) := SaveInto(FolderAt(folders, folderPath), plan);
      r.1.value == PathJoin(folderPath, PlanFileName(n)) && r.0 == folders[folderPath := after]
    ensures r.1.Failure? ==> forall p :: p in folders ==> p in r.0 && r.0[p] == folders[p]
    ensures r.1.Failure? <==> fault == WriteFails || (fault == MakedirsFails && folderPath !in folders)
  {
    if folderPath !in folders && fault == MakedirsFails then
      (folders, Failure(IOError))
    else
      var folder := FolderAt(folders, folderPath);
      if fault == WriteFails then
        (folders[folderPath := folder], Failure(IOError))
      else
        var (after, n) := SaveInto(folder, plan);
        (folders[folderPath := after], Success(PathJoin(folderPath, PlanFileName(n))))
  }

  class MealPlanSaver {
    const baseFolder: string

    constructor (baseFolder: string := "meal_plans")
      ensures this.baseFolder == baseFolder
    {
      this.baseFolder := baseFolder;
    }

    /** `save_meal_plan`: creates the family folder if needed, probes 1.json,
        2.json, ... for the first unused name and writes the plan there. */
    method SaveMealPlan(disk: PlanDisk, familyId: string, mealPlan: string, fault: DiskFault)
      returns (r: Result<string, SaveError>)
      modifies disk
      ensures disk.folders == SaveOutcome(old(disk.folders), PathJoin(baseFolder, familyId), mealPlan, fault).0
      ensures r == SaveOutcome(old(disk.folders), PathJoin(baseFolder, familyId), mealPlan, fault).1
    {
      var folderPath := PathJoin(baseFolder, familyId);
      if folderPath !in disk.folders {
        if fault == MakedirsFails {
          return Failure(IOError);
        }
        disk.folders := disk.folders[folderPath := map[]];
      }
      var folder := disk.folders[folderPath];
      var n := NextFreeIndex(folder.Keys);
      if fault == WriteFails {
        return Failure(IOError);
      }
      disk.folders := disk.folders[folderPath := folder[n := Plan(mealPlan)]];
      r := Success(PathJoin(folderPath, PlanFileName(n)));
    }
  }
}
