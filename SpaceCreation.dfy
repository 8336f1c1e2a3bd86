/** The space creation dialog (components/SpaceCreationModal.tsx): a title
    and at most three distinct tags. */
module SpaceCreation {
  import opened Util

  const MaxTags := 3

  /** Removing a tag from a list holding it once shortens the list by one. */
  lemma {:induction false} RemoveOnce(tags: seq<string>, tag: string)
    requires NoDuplicates(tags) && tag in tags
    ensures |Filter(tags, Except(tag))| == |tags| - 1
    decreases |tags|
  {
    if tags[0] == tag {
      forall k | 0 <= k < |tags[1..]| ensures Except(tag)(tags[1..][k]) {
        assert tags[1..][k] == tags[k + 1];
      }
      FilterAll(tags[1..], Except(tag));
    } else {
      assert tag in tags[1..];
      RemoveOnce(tags[1..], tag);
    }
  }

  /** What onStartSpace receives. */
  datatype StartRequest = StartRequest(title: string, tags: seq<string>)

  class SpaceCreationModal {
    var title: string
    var selectedTags: seq<string>

    ghost predicate Valid()
      reads this
    {
      |selectedTags| <= MaxTags && NoDuplicates(selectedTags)
    }

    constructor()
      ensures Valid() && title == "" && selectedTags == []
    {
      title := "";
      selectedTags := [];
    }

    method SetTitle(value: string)
      requires Valid()
      modifies this
      ensures Valid() && title == value && selectedTags == old(selectedTags)
    {
      title := value;
    }

    /** toggleTag: a selected tag is removed, the others keeping their
        order; an unselected one is appended while fewer than three are
        selected, and ignored otherwise. */
    method ToggleTag(tag: string)
      requires Valid()
      modifies this
      ensures Valid() && title == old(title)
      ensures tag in old(selectedTags) ==>
        selectedTags == Filter(old(selectedTags), Except(tag)) && |selectedTags| == |old(selectedTags)| - 1
      ensures tag !in old(selectedTags) && |old(selectedTags)| < MaxTags ==> selectedTags == old(selectedTags) + [tag]
      ensures tag !in old(selectedTags) && |old(selectedTags)| >= MaxTags ==> selectedTags == old(selectedTags)
      ensures tag in selectedTags <==> tag !in old(selectedTags) && |old(selectedTags)| < MaxTags
    {
      if tag in selectedTags {
        RemoveOnce(selectedTags, tag);
        FilterNoDuplicates(selectedTags, Except(tag));
        selectedTags := Filter(selectedTags, Except(tag));
      } else if |selectedTags| < MaxTags {
        selectedTags := selectedTags + [tag];
      }
    }

    /** The start button is enabled when the trimmed title is not empty. */
    function CanStart(): (r: bool)
      reads this
      ensures r <==> exists i :: 0 <= i < |title| && !IsSpace(title[i])
    {
      !IsBlank(title)
    }

    /** Pressing start: onStartSpace gets the untrimmed title and the
        selected tags; a disabled button does nothing. */
    method Start() returns (request: Option<StartRequest>)
      ensures request.Some? <==> CanStart()
      ensures request.Some? ==> request.value == StartRequest(title, selectedTags)
    {
      if CanStart() {
        request := Some(StartRequest(title, selectedTags));
      } else {
        request := None;
      }
    }
  }
}
