/** The bundled default card (constants.ts). Its URLs and sample projects
    are data, not logic; the rest of the model only relies on it being one
    fixed value. Long texts are written as concatenations of shorter
    literals (the values are unchanged), which keeps every proof that
    mentions the default card small. */
module Constants {
  import opened Types

  const Ibb: string := "https://i.ibb.co/"
  const UnsplashPhoto: string := "https://images.unsplash.com/photo-"
  const Crop800: string := "?auto=format&fit=crop&w=800&q=80"

  const DefaultAssets: Assets := Assets(
    Ibb + "4RKTydDT/Andy.jpg",
    Ibb + "P76k1ZV/Andy.jpg",
    UnsplashPhoto + "1586528116311-ad8dd3c8310d" + "?ixlib=rb-4.0.3" + "&auto=format&fit=crop&w=1000&q=80",
    Ibb + "VY0kfHdv/" + "Logo-Nhon-My-700x700-2-150x150.png",
    Some("https://flagcdn.com/w40/vn.png"),
    Some("https://flagcdn.com/w40/us.png"))

  const DefaultQrImages: QrImages := QrImages(
    Ibb + "P76k1ZV/Andy.jpg",
    Some(Ibb + "QFSCgkCP/Andy-Wechat.jpg"),
    Some(Ibb + "wNnkr6ts/Andy-Vcb.jpg"),
    Some("https://api.qrserver.com/" + "v1/create-qr-code/?size=300x300" + "&data=https://wa.me/84972133680"))

  const DefaultSocialLinks: seq<SocialLink> := [
    SocialLink("zalo", Ibb + "d4nRhVQV/Zalo.png", "Zalo",
      Some("https://zalo.me/0972133680"), None, None),
    SocialLink("whatsapp", Ibb + "XxqRB3Qg/Whatsapp.png", "WhatsApp",
      Some("https://wa.me/0972133680"), DefaultQrImages.whatsapp, None),
    SocialLink("wechat", Ibb + "Zz41gSrk/Wechat.png", "WeChat",
      Some("#"), DefaultQrImages.wechat, None),
    SocialLink("email", Ibb + "nqyMXyNM/Email.png", "Email",
      Some("mailto:" + "sales1@longhoanglogistics.com"), None, None),
    SocialLink("map", Ibb + "7dTZHSwV/Map.png", "Địa Chỉ",
      Some("https://maps.app.goo.gl/" + "ZSVFYotTCuGWNQmW8"), None, None),
    SocialLink("website", Ibb + "Gf69QR4R/Website.png", "Website",
      Some("https://www.longhoanglogistics.com"), None, None),
    SocialLink("profile", Ibb + "VY01h09d/Profile.png", "Profile",
      Some("https://drive.google.com/file/d/" + "1wyPCBaCLTiUx3aWMwIX3X1WryfnTL-Lp" + "/view?usp=drive_link"), None, None),
    SocialLink("facebook", Ibb + "67VF7N5R/Facebook.png", "Facebook",
      Some("https://www.facebook.com/" + "share/1BtMe8vCaB/?mibextid=wwXIfr"), None, None),
    SocialLink("tiktok", Ibb + "cStFGVqG/Tiktok.png", "TikTok",
      Some("https://www.tiktok.com/" + "@hoangkimberry"), None, None),
    SocialLink("instagram", Ibb + "39gCrw9n/Instagram.png", "Instagram",
      Some("https://www.instagram.com/" + "hoangkimberry"), None, None),
    SocialLink("momo", Ibb + "KpRgSv04/Momo.png", "Momo",
      Some("https://nhantien.momo.vn/" + "hoangkimberry"), None, None),
    SocialLink("vcb", Ibb + "WNDG8rdx/Vietcombank.png", "VCB",
      Some("#"), DefaultQrImages.vcb, None)
  ]

  const SampleProjects: seq<Project> := [
    Project("p1", "Vận chuyển siêu trường siêu trọng",
      UnsplashPhoto + "1605218427360-69603f64ec80" + Crop800,
      "Dự án vận chuyển máy móc thiết bị hạng nặng " +
      "cho nhà máy nhiệt điện. " +
      "Đảm bảo an toàn tuyệt đối và đúng tiến độ.",
      [UnsplashPhoto + "1580674684081-7617fbf3d745" + Crop800,
       UnsplashPhoto + "1578575437130-527eed3abbec" + Crop800]),
    Project("p2", "Air Freight - Hàng xuất khẩu",
      UnsplashPhoto + "1436491865332-7a61a109cc05" + Crop800,
      "Xử lý lô hàng xuất khẩu bằng đường hàng không " +
      "đi thị trường EU/US với thời gian gấp.",
      [UnsplashPhoto + "1530521954074-e64f6810b32d" + Crop800,
       UnsplashPhoto + "1569154941061-e231b4725ef1" + Crop800]),
    Project("p3", "Kho bãi và phân phối",
      UnsplashPhoto + "1553413077-190dd305871c" + Crop800,
      "Giải pháp kho bãi thông minh " +
      "và hệ thống phân phối hàng hóa toàn quốc.",
      [UnsplashPhoto + "1586528116311-ad8dd3c8310d" + Crop800])
  ]

  const DefaultVi: Translation := Translation(
    "Lâm Ngọc Vũ",
    "Leader Business Development",
    ["Kinh nghiệm nhiều năm " + "trong lĩnh vực Logistics.",
     "Chuyên về FCL, LCL " + "và vận chuyển hàng không.",
     "Cung cấp trọn gói dịch vụ: " + "Tư vấn – Báo giá – Đặt chỗ – Theo dõi lô hàng.",
     "Cam kết giao hàng đúng tiến độ, " + "tối ưu chi phí.",
     "Sẵn sàng hỗ trợ 24/7."],
    "Đăng Ký Tư Vấn",
    ["Leader Team Sale 1 – " + "Công ty Long Hoàng Logistics"],
    "Lưu Danh bạ",
    "Chia sẻ",
    "Quét mã",
    "Đóng",
    ConsultationFormTrans(
      "Yêu Cầu Báo Giá",
      "Loại Hàng hóa",
      "Cảng đi (POL)",
      "Cảng đến (POD)",
      "Khối lượng (Volume)",
      "Báo Giá Qua Zalo",
      "Nội dung đã được copy! " + "Vui lòng dán vào cuộc trò chuyện Zalo."),
    "Dự Án Tiêu Biểu",
    "Quay lại danh sách")

  const DefaultEn: Translation := Translation(
    "Mr. Andy",
    "Leader Business Development",
    ["Many years of experience " + "in the Logistics industry.",
     "Specialized in FCL, LCL, " + "and Air Freight.",
     "Providing end-to-end services: " + "Consulting – Quotation – Booking – Shipment Tracking.",
     "Committed to on-time delivery " + "and cost optimization.",
     "Available 24/7 for support."],
    "Register for Consultation",
    ["Leader Team Sale 1 – " + "Long Hoang Logistics Company"],
    "Save Contact",
    "Share",
    "Scan QR",
    "Close",
    ConsultationFormTrans(
      "Request Quotation",
      "Type of Goods",
      "Port of Loading",
      "Port of Discharge",
      "Volume",
      "Get Quote via Zalo",
      "Content copied! " + "Please paste into Zalo chat."),
    "Featured Projects",
    "Back to Projects")

  /** DEFAULT_PROFILE: the card shown when no stored profile is selected and
      the seed of an empty store. */
  const DefaultProfile: UserProfile := UserProfile(
    "default",
    "Lâm Ngọc Vũ (Default)",
    DefaultAssets,
    DefaultQrImages,
    DefaultSocialLinks,
    SampleProjects,
    ContentData(DefaultVi, DefaultEn),
    "0972133680",
    "+84972133680")
}
