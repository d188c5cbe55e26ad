/** The publish screen of the catalog app (`NewPostView` with its
    `NewPostViewModel`): a species picker, a place search, a map pick, and a
    Post button that uploads the photo and writes one `PostRecord.Post`. */
module NewPostFlow {
  import opened Wrappers
  import opened Geo
  import opened Backend
  import PostRecord

  const ConvertImageFailed := "Failed to convert image to data"
  const AnonymousUser := "Anonymous"
  const SpeciesPlaceholder := "Select Fish Species"

  /** A search hit: its optional name and its placemark's coordinate. */
  datatype MapItem = MapItem(name: Option<string>, coordinate: Coordinate)

  /** `post_images/<UUID>.jpg`, the blob path of an uploaded photo. */
  function ImagePath(name: Uuid): string {
    "post_images/" + name.uuidString + ".jpg"
  }

  /** The record `createPost` writes once the photo's URL is known. */
  function CatchPost(imageUrl: string, caption: string, fishType: string, location: Option<Coordinate>,
                     locationName: string, currentUserEmail: Option<string>, resp: Responses): PostRecord.Post
  {
    PostRecord.NewPost(resp.postId, currentUserEmail.GetOr(AnonymousUser), resp.now, imageUrl, fishType, caption,
                       location.GetOr(Origin), locationName)
  }

  /** What `createPost` does: nothing without a photo, otherwise upload the
      photo and then write the record built from its URL. */
  function CreatePostRun(postImage: Option<Image>, caption: string, fishType: string, location: Option<Coordinate>,
                         locationName: string, currentUserEmail: Option<string>, resp: Responses): Run
  {
    if postImage.None? then Run([], Pass)
    else PublishRun(resp.jpeg, ConvertImageFailed, ImagePath(resp.blobName), resp.put, resp.url, resp.write,
                    url => PostRecord.ToDictionary(CatchPost(url, caption, fishType, location, locationName, currentUserEmail, resp)))
  }

  /** Without a photo `createPost` returns normally having called no store. */
  lemma NoPhotoNoCalls(caption: string, fishType: string, location: Option<Coordinate>, locationName: string,
                       currentUserEmail: Option<string>, resp: Responses)
    ensures CreatePostRun(None, caption, fishType, location, locationName, currentUserEmail, resp) == Run([], Pass)
  {
  }

  /** The written record carries the resolved URL, the user's email or
      "Anonymous", the caption as description, and the given location or
      (0, 0) when there is none; the write comes after the put and the URL
      resolution. */
  lemma WrittenRecord(postImage: Option<Image>, caption: string, fishType: string, location: Option<Coordinate>,
                      locationName: string, currentUserEmail: Option<string>, resp: Responses, k: nat)
    requires var r := CreatePostRun(postImage, caption, fishType, location, locationName, currentUserEmail, resp);
             k < |r.calls| && r.calls[k].AddDocument?
    ensures postImage.Some? && resp.jpeg.Some? && resp.put.Pass? && resp.url.Ok? && k == 2
    ensures var r := CreatePostRun(postImage, caption, fishType, location, locationName, currentUserEmail, resp);
            && r.calls[0] == PutData(ImagePath(resp.blobName), resp.jpeg.value)
            && r.calls[1] == DownloadUrl(ImagePath(resp.blobName))
            && PostRecord.FromDictionary(r.calls[2].fields)
               == Some(PostRecord.Post(resp.postId.uuidString,
                                       if location.Some? then location.value else Coordinate(Finite(0.0), Finite(0.0)),
                                       resp.url.value,
                                       if currentUserEmail.Some? then currentUserEmail.value else "Anonymous",
                                       resp.now, fishType, caption, locationName))
  {
    var r := CreatePostRun(postImage, caption, fishType, location, locationName, currentUserEmail, resp);
    WriteOnlyAfterUpload(resp.jpeg, ConvertImageFailed, ImagePath(resp.blobName), resp.put, resp.url, resp.write,
                         url => PostRecord.ToDictionary(CatchPost(url, caption, fishType, location, locationName, currentUserEmail, resp)), k);
    PostRecord.ToDictionaryRoundTrip(CatchPost(resp.url.value, caption, fishType, location, locationName, currentUserEmail, resp));
  }

  class NewPostViewModel {
    var postImage: Option<Image>
    var imageLocation: Option<Coordinate>
    var canPost: bool

    constructor ()
      ensures postImage == None && imageLocation == None && !canPost
    {
      postImage, imageLocation, canPost := None, None, false;
    }

    /** The `imageSelection` observer: a selection that loads and decodes
        becomes `postImage`; a failed load (already reported) changes nothing. */
    method ImageSelectionLoaded(loaded: Option<Image>)
      modifies this`postImage
      ensures postImage == (if loaded.Some? then loaded else old(postImage))
    {
      if loaded.Some? {
        postImage := loaded;
      }
    }

    /** `uploadImage`: encode, put under a fresh `post_images/` path, resolve
        the URL. Each failure is thrown with its message, and no step runs
        after a failed one. */
    method UploadImage(image: Image, resp: Responses) returns (calls: seq<StoreCall>, url: Result<string, string>)
      ensures resp.jpeg.None? ==> calls == [] && url == Err(ConvertImageFailed)
      ensures resp.jpeg.Some? && resp.put.Fail? ==>
                calls == [PutData(ImagePath(resp.blobName), resp.jpeg.value)] && url == Err(resp.put.error)
      ensures resp.jpeg.Some? && resp.put.Pass? ==>
                calls == [PutData(ImagePath(resp.blobName), resp.jpeg.value), DownloadUrl(ImagePath(resp.blobName))]
                && url == resp.url
    {
      if resp.jpeg.None? {
        return [], Err(ConvertImageFailed);
      }
      var path := ImagePath(resp.blobName);
      calls := [PutData(path, resp.jpeg.value)];
      if resp.put.Fail? {
        return calls, Err(resp.put.error);
      }
      calls := calls + [DownloadUrl(path)];
      url := resp.url;
    }

    /** `createPost`: return at once without a photo; otherwise upload it,
        build the record from the returned URL and write it, rethrowing any
        error. The view model's own state is not changed. */
    method CreatePost(caption: string, fishType: string, location: Option<Coordinate>, locationName: string,
                      currentUserEmail: Option<string>, resp: Responses)
      returns (calls: seq<StoreCall>, outcome: Outcome<string>)
      ensures Run(calls, outcome) == CreatePostRun(postImage, caption, fishType, location, locationName, currentUserEmail, resp)
    {
      if postImage.None? {
        return [], Pass;
      }
      var url;
      calls, url := UploadImage(postImage.value, resp);
      if url.Err? {
        return calls, Fail(url.error);
      }
      var post := CatchPost(url.value, caption, fishType, location, locationName, currentUserEmail, resp);
      calls := calls + [AddDocument(PostsCollection, PostRecord.ToDictionary(post))];
      outcome := if resp.write.Err? then Fail(resp.write.error) else Pass;
    }
  }

  class NewPostScreen {
    const viewModel: NewPostViewModel
    var caption: string
    var selectedFishSpecies: string
    var selectedLocation: Option<Coordinate>
    var locationName: string
    var searchText: string
    var searchResults: seq<MapItem>
    var isSearching: bool
    /** Whether `dismiss()` has been called. */
    var dismissed: bool

    constructor (viewModel: NewPostViewModel)
      ensures this.viewModel == viewModel
      ensures caption == "" && selectedFishSpecies == SpeciesPlaceholder && selectedLocation == None
      ensures locationName == "" && searchText == "" && searchResults == [] && !isSearching && !dismissed
      ensures !PostEnabled()
    {
      this.viewModel := viewModel;
      caption, selectedFishSpecies, selectedLocation := "", SpeciesPlaceholder, None;
      locationName, searchText, searchResults, isSearching, dismissed := "", "", [], false, false;
    }

    /** `searchLocation`: an empty query clears the results and ends the
        search; any other query starts one, whose hits arrive later through
        `SearchCompleted`. */
    method SearchLocation(query: string)
      modifies this`searchResults, this`isSearching
      ensures query == "" ==> searchResults == [] && !isSearching
      ensures query != "" ==> searchResults == old(searchResults) && isSearching
    {
      if query == "" {
        searchResults := [];
        isSearching := false;
        return;
      }
      isSearching := true;
    }

    /** The local search's completion handler: a response replaces the
        results; an error leaves them as they were. */
    method SearchCompleted(response: Option<seq<MapItem>>)
      modifies this`searchResults
      ensures searchResults == (if response.Some? then response.value else old(searchResults))
    {
      if response.Some? {
        searchResults := response.value;
      }
    }

    /** `selectLocation`: the item's coordinate becomes the selected location
        and its name, or "" when it has none, the location name. */
    method SelectLocation(item: MapItem)
      modifies this`selectedLocation, this`locationName
      ensures selectedLocation == Some(item.coordinate)
      ensures locationName == (if item.name.Some? then item.name.value else "")
    {
      selectedLocation := Some(item.coordinate);
      locationName := item.name.GetOr("");
    }

    /** Tapping a search hit: select it, end the search, and clear the query
        and the results (the query's change handler then sees "" and clears
        them again). */
    method ChooseSearchResult(item: MapItem)
      modifies this`selectedLocation, this`locationName, this`isSearching, this`searchText, this`searchResults
      ensures selectedLocation == Some(item.coordinate)
      ensures locationName == (if item.name.Some? then item.name.value else "")
      ensures !isSearching && searchText == "" && searchResults == []
    {
      SelectLocation(item);
      isSearching := false;
      searchText := "";
      searchResults := [];
      SearchLocation(searchText);
    }

    /** Whether the Post button is enabled: a photo is loaded and a species
        other than the placeholder is picked. */
    predicate PostEnabled()
      reads this, viewModel
    {
      viewModel.postImage.Some? && selectedFishSpecies != SpeciesPlaceholder
    }

    /** The Post button's action: nothing without a selected location;
        otherwise create the post at that location with the picked species,
        ignore any error it throws, and dismiss the screen either way. */
    method PostTapped(currentUserEmail: Option<string>, resp: Responses) returns (calls: seq<StoreCall>)
      modifies this`dismissed
      ensures old(selectedLocation).None? ==> calls == [] && dismissed == old(dismissed)
      ensures selectedLocation.Some? ==>
                && calls == CreatePostRun(viewModel.postImage, caption, selectedFishSpecies, selectedLocation,
                                          locationName, currentUserEmail, resp).calls
                && dismissed
    {
      calls := [];
      if selectedLocation.None? {
        return;
      }
      var location := selectedLocation.value;
      var ignored;
      calls, ignored := viewModel.CreatePost(caption, selectedFishSpecies, Some(location), locationName, currentUserEmail, resp);
      dismissed := true;
    }
  }
}
