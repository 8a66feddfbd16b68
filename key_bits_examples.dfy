/**
  Clients of the key-bit contracts: one example per bit, each following from
  the contracts alone. The headers, user, request-meta, query-params and
  pagination examples use the values of the docstrings in bits.py.
*/
module KeyBitsExamples {
  import opened Wrappers
  import opened KeyBits

  /** `force_text` of a string is the string itself. */
  function StringText(s: string): string {
    s
  }

  function EmptyRequest(user: Option<User<string>>): Request<string> {
    Request(map[], map[], user)
  }

  method HeadersExample(prepareHeaderName: string -> string)
    requires prepareHeaderName("accept-language") == "http_accept_language"
  {
    var request := Request(map["http_accept_language" := Some("ru")], map[], None);
    var r := HeadersKeyBitData(Some(["Accept-Language"]), request, prepareHeaderName, StringText);
    assert Lower("Accept-Language") == "accept-language";
    assert AssignedKeys(["Accept-Language"], Lower) == {"accept-language"};
    assert Lookup(request.meta, "http_accept_language") == Some("ru");
    var expected := LookedUpAt({"accept-language"}, request.meta, prepareHeaderName, StringText);
    assert "accept-language" in expected && expected["accept-language"] == "ru";
    assert expected.Keys == {"accept-language"};
    assert expected == map["accept-language" := "ru"];
    assert r == Success(map["accept-language" := "ru"]);
    var missing := HeadersKeyBitData(None, request, prepareHeaderName, StringText);
    assert missing == Failure(ParamsNotIterable);
  }

  method RequestMetaExample() {
    var meta := map["REMOTE_ADDR" := Some("127.0.0.2"), "REMOTE_HOST" := Some("yandex.ru"),
                    "SERVER_NAME" := Some("testserver")];
    var request := Request(meta, map[], None);
    var r := RequestMetaKeyBitData(Some(["REMOTE_ADDR", "REMOTE_HOST"]), request, StringText);
    assert r.value.Keys == {"REMOTE_ADDR", "REMOTE_HOST"};
    assert r.value["REMOTE_ADDR"] == "127.0.0.2" && r.value["REMOTE_HOST"] == "yandex.ru";
    var expected := map["REMOTE_ADDR" := "127.0.0.2", "REMOTE_HOST" := "yandex.ru"];
    assert expected.Keys == {"REMOTE_ADDR", "REMOTE_HOST"};
    assert r.value == expected;
  }

  method QueryParamsExample() {
    var query := map["part" := Some("Londo"), "callback" := Some("jquery_callback"), "page" := None];
    var request := Request(map[], query, None);
    var r := QueryParamsKeyBitData(Some(["part", "callback", "page"]), request, StringText);
    assert r.value.Keys == {"part", "callback"};
    assert r.value["part"] == "Londo" && r.value["callback"] == "jquery_callback";
    var expected := map["part" := "Londo", "callback" := "jquery_callback"];
    assert expected.Keys == {"part", "callback"};
    assert r.value == expected;
  }

  method UserExample() {
    assert UserKey(EmptyRequest(None), StringText) == "anonymous";
    var anonymous := User("", true, false);
    assert UserKey(EmptyRequest(Some(anonymous)), StringText) == "anonymous";
    var user := User("10", true, true);
    assert UserKey(EmptyRequest(Some(user)), StringText) == "10";
  }

  method PaginationExample() {
    var view := View("app.views", "ListView", Some("page"), Some("page_size"));
    var request := Request(map[], map["page" := Some("1"), "page_size" := Some("100")], None);
    var data := PaginationKeyBitData(Some(["ignored"]), view, request, StringText);
    assert PaginationFields(view) == ["page", "page_size"];
    assert data == map["page" := "1", "page_size" := "100"];
    var plain := View("app.views", "ListView", None, None);
    var none := PaginationKeyBitData(Some(["page"]), plain, request, StringText);
    assert none == map[];
  }

  method KwargsExample() {
    var kwargs := map["id" := Some("5"), "format" := Some("json"), "pk" := None];
    var all := KwargsKeyBitData(None, kwargs, StringText);
    assert all == map["id" := "5", "format" := "json"];
    var some := KwargsKeyBitData(Some(["id", "missing"]), kwargs, StringText);
    assert some == map["id" := "5"];
  }

  method ArgsExample() {
    var args := ["a", "b", "c"];
    assert ArgsKey(None, args) == Success(args);
    var picked := ArgsKey(Some([2, 0, -1]), args);
    assert picked.Success? && |picked.value| == 3;
    assert picked.value[0] == "c" && picked.value[1] == "a" && picked.value[2] == "c";
    assert picked.value == [picked.value[0], picked.value[1], picked.value[2]];
    assert picked == Success(["c", "a", "c"]);
    assert ArgsKey(Some([0, 3]), args) == Failure(IndexOutOfRange(3));
  }

  method IdentityExample() {
    var view := View("app.views", "ListView", None, None);
    assert UniqueViewId(view) == "app.views.ListView";
    assert UniqueMethodId(view, ViewMethod("get")) == "app.views.ListView.get";
  }
}
