/** The fixed texts of the generated page. The head, each card and the
    trailer are these texts with the interpolated values between them. */
module PageTemplate {

  /** The fixed texts around each interpolated value, in document order. */
  datatype Template = Template(
    headBeforeCount: string,       // doctype, styles, title block, up to the count
    headAfterCount: string,        // after the count, up to the opening of the grid
    cardBeforeDelay: string,       // card opening, up to its animation delay
    cardBeforeSrc: string,         // after the delay, up to the image source
    cardBeforeAlt: string,         // after the image source, up to the alt text
    cardBeforeName: string,        // image fallback handler, up to the name label
    cardBeforeCategory: string,    // after the name label, up to the category label
    cardEnd: string,               // rest of the card
    trailerBeforeLogCount: string, // end of the grid, script, up to the console message's count
    trailerAfterLogCount: string)  // rest of the script and the document end

  /** The texts of the gallery page. The trailer is a plain (non-formatted)
      string, so where its console message names the count it holds the
      literal text of LogCountPlaceholder instead. */
  const GalleryTemplate: Template := Template(
    // headBeforeCount
    "<!DOCTYPE html>\n" +
    "<html lang=\"zh-CN\">\n" +
    "<head>\n" +
    "    <meta charset=\"UTF-8\">\n" +
    "    <meta name=\"viewport\" " +
    "content=\"width=device-width, " +
    "initial-scale=1.0\">\n" +
    "    <title>食材图片画廊 - 完整收录</title>\n" +
    "    <style>\n" +
    "        * {\n" +
    "            margin: 0;\n" +
    "            padding: 0;\n" +
    "            box-sizing: border-box;\n" +
    "        }\n" +
    "        \n" +
    "        body {\n" +
    "            font-family: -apple-system, " +
    "BlinkMacSystemFont, 'Segoe UI', Roboto, " +
    "sans-serif;\n" +
    "            background-color: #f8f9fa;\n" +
    "            padding: 20px;\n" +
    "            line-height: 1.6;\n" +
    "        }\n" +
    "        \n" +
    "        .header {\n" +
    "            text-align: center;\n" +
    "            margin-bottom: 40px;\n" +
    "        }\n" +
    "        \n" +
    "        .header h1 {\n" +
    "            color: #2c3e50;\n" +
    "            font-size: 2.5rem;\n" +
    "            margin-bottom: 10px;\n" +
    "        }\n" +
    "        \n" +
    "        .header p {\n" +
    "            color: #7f8c8d;\n" +
    "            font-size: 1.1rem;\n" +
    "        }\n" +
    "        \n" +
    "        .gallery {\n" +
    "            display: grid;\n" +
    "            grid-template-columns: repeat(4, " +
    "1fr);\n" +
    "            gap: 20px;\n" +
    "            max-width: 1200px;\n" +
    "            margin: 0 auto;\n" +
    "        }\n" +
    "        \n" +
    "        .item {\n" +
    "            background: white;\n" +
    "            border-radius: 12px;\n" +
    "            padding: 15px;\n" +
    "            box-shadow: 0 2px 10px rgba(0, 0, " +
    "0, 0.1);\n" +
    "            transition: transform 0.3s ease, " +
    "box-shadow 0.3s ease;\n" +
    "            text-align: center;\n" +
    "        }\n" +
    "        \n" +
    "        .item:hover {\n" +
    "            transform: translateY(-5px);\n" +
    "            box-shadow: 0 8px 25px rgba(0, 0, " +
    "0, 0.15);\n" +
    "        }\n" +
    "        \n" +
    "        .item img {\n" +
    "            width: 100%;\n" +
    "            height: 200px;\n" +
    "            object-fit: cover;\n" +
    "            border-radius: 8px;\n" +
    "            margin-bottom: 10px;\n" +
    "            background-color: #f1f2f6;\n" +
    "        }\n" +
    "        \n" +
    "        .item-name {\n" +
    "            font-weight: 600;\n" +
    "            color: #2c3e50;\n" +
    "            font-size: 0.9rem;\n" +
    "            margin-bottom: 5px;\n" +
    "            text-transform: capitalize;\n" +
    "        }\n" +
    "        \n" +
    "        .item-category {\n" +
    "            color: #7f8c8d;\n" +
    "            font-size: 0.8rem;\n" +
    "            background-color: #ecf0f1;\n" +
    "            padding: 3px 8px;\n" +
    "            border-radius: 12px;\n" +
    "            display: inline-block;\n" +
    "        }\n" +
    "        \n" +
    "        .stats {\n" +
    "            text-align: center;\n" +
    "            margin-bottom: 30px;\n" +
    "            color: #7f8c8d;\n" +
    "        }\n" +
    "        \n" +
    "        /* 响应式设计 */\n" +
    "        @media (max-width: 1024px) {\n" +
    "            .gallery {\n" +
    "                grid-template-columns: " +
    "repeat(3, 1fr);\n" +
    "            }\n" +
    "        }\n" +
    "        \n" +
    "        @media (max-width: 768px) {\n" +
    "            .gallery {\n" +
    "                grid-template-columns: " +
    "repeat(2, 1fr);\n" +
    "                gap: 15px;\n" +
    "            }\n" +
    "            \n" +
    "            .header h1 {\n" +
    "                font-size: 2rem;\n" +
    "            }\n" +
    "        }\n" +
    "        \n" +
    "        @media (max-width: 480px) {\n" +
    "            .gallery {\n" +
    "                grid-template-columns: 1fr;\n" +
    "            }\n" +
    "            \n" +
    "            body {\n" +
    "                padding: 15px;\n" +
    "            }\n" +
    "        }\n" +
    "        \n" +
    "        /* 加载动画 */\n" +
    "        .item img {\n" +
    "            opacity: 0;\n" +
    "            animation: fadeIn 0.5s ease " +
    "forwards;\n" +
    "        }\n" +
    "        \n" +
    "        @keyframes fadeIn {\n" +
    "            to {\n" +
    "                opacity: 1;\n" +
    "            }\n" +
    "        }\n" +
    "        \n" +
    "        /* 错误处理 */\n" +
    "        .item img[src=\"\"], .item img:not([src]) " +
    "{\n" +
    "            background-color: #ecf0f1;\n" +
    "            background-image: " +
    "url(\"data:image/svg+xml,%3Csvg " +
    "xmlns='http://www.w3.org/2000/svg' width='100' " +
    "height='100' viewBox='0 0 100 100'%3E%3Ctext " +
    "x='50' y='50' font-family='Arial' " +
    "font-size='12' fill='%23bdc3c7' " +
    "text-anchor='middle' dy='.3em'%3E图片加载中...%3C/tex" +
    "t%3E%3C/svg%3E\");\n" +
    "            background-repeat: no-repeat;\n" +
    "            background-position: center;\n" +
    "        }\n" +
    "    </style>\n" +
    "</head>\n" +
    "<body>\n" +
    "    <div class=\"header\">\n" +
    "        <h1>🍽️ 食材图片画廊</h1>\n" +
    "        <p>完整收录所有高质量食材图片</p>\n" +
    "    </div>\n" +
    "    \n" +
    "    <div class=\"stats\">\n" +
    "        <p>共展示 <strong>",
    // headAfterCount
    "</strong> 个食材</p>\n" +
    "    </div>\n" +
    "    \n" +
    "    <div class=\"gallery\">\n",
    // cardBeforeDelay
    "        <div class=\"item\" " +
    "style=\"animation-delay: ",
    // cardBeforeSrc
    "s;\">\n" +
    "            <img src=\"",
    // cardBeforeAlt
    "\" alt=\"",
    // cardBeforeName
    "\" loading=\"lazy\" \n" +
    "                 onerror=\"this.style.backgroundI" +
    "mage='url(data:image/svg+xml,%3Csvg " +
    "xmlns=\\'http://www.w3.org/2000/svg\\' " +
    "width=\\'100\\' height=\\'100\\' viewBox=\\'0 0 100 " +
    "100\\'%3E%3Ctext x=\\'50\\' y=\\'50\\' " +
    "font-family=\\'Arial\\' font-size=\\'12\\' " +
    "fill=\\'%23e74c3c\\' text-anchor=\\'middle\\' " +
    "dy=\\'.3em\\'%3E加载失败%3C/text%3E%3C/svg%3E)'; " +
    "this.style.backgroundColor='#fadbd8';\">\n" +
    "            <div class=\"item-name\">",
    // cardBeforeCategory
    "</div>\n" +
    "            <div class=\"item-category\">",
    // cardEnd
    "</div>\n" +
    "        </div>\n",
    // trailerBeforeLogCount
    "    </div>\n" +
    "    \n" +
    "    <script>\n" +
    "        // 图片懒加载优化\n" +
    "        if ('IntersectionObserver' in window) {\n" +
    "            const imageObserver = new " +
    "IntersectionObserver((entries, observer) => {\n" +
    "                entries.forEach(entry => {\n" +
    "                    if (entry.isIntersecting) {\n" +
    "                        const img = " +
    "entry.target;\n" +
    "                        img.src = " +
    "img.dataset.src || img.src;\n" +
    "                        img.classList.remove('la" +
    "zy');\n" +
    "                        imageObserver.unobserve(" +
    "img);\n" +
    "                    }\n" +
    "                });\n" +
    "            });\n" +
    "            \n" +
    "            document.querySelectorAll('img[loadi" +
    "ng=\"lazy\"]').forEach(img => {\n" +
    "                imageObserver.observe(img);\n" +
    "            });\n" +
    "        }\n" +
    "        \n" +
    "        // 添加点击放大功能\n" +
    "        document.querySelectorAll('.item " +
    "img').forEach(img => {\n" +
    "            img.addEventListener('click', " +
    "function() {\n" +
    "                const modal = " +
    "document.createElement('div');\n" +
    "                modal.style.cssText = `\n" +
    "                    position: fixed;\n" +
    "                    top: 0;\n" +
    "                    left: 0;\n" +
    "                    width: 100%;\n" +
    "                    height: 100%;\n" +
    "                    background: " +
    "rgba(0,0,0,0.8);\n" +
    "                    display: flex;\n" +
    "                    justify-content: center;\n" +
    "                    align-items: center;\n" +
    "                    z-index: 1000;\n" +
    "                    cursor: pointer;\n" +
    "                `;\n" +
    "                \n" +
    "                const modalImg = " +
    "document.createElement('img');\n" +
    "                modalImg.src = " +
    "this.src.replace('w_240', 'w_800');\n" +
    "                modalImg.style.cssText = `\n" +
    "                    max-width: 90%;\n" +
    "                    max-height: 90%;\n" +
    "                    border-radius: 8px;\n" +
    "                    box-shadow: 0 4px 20px " +
    "rgba(0,0,0,0.3);\n" +
    "                `;\n" +
    "                \n" +
    "                modal.appendChild(modalImg);\n" +
    "                document.body.appendChild(modal)" +
    ";\n" +
    "                \n" +
    "                modal.addEventListener('click', " +
    "() => {\n" +
    "                    document.body.removeChild(mo" +
    "dal);\n" +
    "                });\n" +
    "            });\n" +
    "        });\n" +
    "        \n" +
    "        console.log('食材图片画廊加载完成！共展示 ",
    // trailerAfterLogCount
    " 个食材');\n" +
    "    </script>\n" +
    "</body>\n" +
    "</html>")

  const LogCountPlaceholder: string := "{len(items)}"
}
